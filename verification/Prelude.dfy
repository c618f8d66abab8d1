/** What every module shares. */
module Prelude {
  datatype Option<+T> = None | Some(value: T)

  datatype Result<+T, +E> = Ok(value: T) | Err(error: E)

  // UUIDs are only compared for equality.
  type Id = nat

  // Nanoseconds.
  type Time = int

  // A path of a transition system: one state more than steps.
  datatype Trace<S, A> = Trace(states: seq<S>, steps: seq<A>)

  ghost function Last<S, A>(r: Trace<S, A>): S
    requires r.states != []
  {
    r.states[|r.states| - 1]
  }

  ghost predicate Distinct<T>(s: seq<T>) {
    forall i, j | 0 <= i < j < |s| :: s[i] != s[j]
  }
}
