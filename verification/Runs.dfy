/** Runs of a state machine. */
module Runs {
  import opened Options

  /* A machine answers with the next state, or with nothing when the action is not possible. */

  predicate Possible<S, A>(next: (S, A) -> Option<S>, st: S, actions: seq<A>)
    decreases |actions|
  {
    actions == [] || (next(st, actions[0]).Some? && Possible(next, next(st, actions[0]).value, actions[1..]))
  }

  /** The state after the first n actions. */
  function After<S, A>(next: (S, A) -> Option<S>, st: S, actions: seq<A>, n: nat): S
    requires Possible(next, st, actions) && n <= |actions|
    decreases n
  {
    if n == 0 then st else After(next, next(st, actions[0]).value, actions[1..], n - 1)
  }

  lemma {:induction false} AfterStep<S, A>(next: (S, A) -> Option<S>, st: S, actions: seq<A>, n: nat)
    requires Possible(next, st, actions) && n < |actions|
    ensures next(After(next, st, actions, n), actions[n]) == Some(After(next, st, actions, n + 1))
    decreases n
  {
    if n > 0 {
      AfterStep(next, next(st, actions[0]).value, actions[1..], n - 1);
    }
  }

  /** Every possible step by one of these actions keeps the property. */
  ghost predicate Keeps<S(!new), A(!new)>(next: (S, A) -> Option<S>, inv: S -> bool, among: A -> bool) {
    forall st, a :: inv(st) && among(a) && next(st, a).Some? ==> inv(next(st, a).value)
  }

  /** What every step keeps holds at every point of every run. */
  lemma {:induction false} AlwaysHolds<S(!new), A(!new)>(next: (S, A) -> Option<S>, inv: S -> bool, among: A -> bool, st: S, actions: seq<A>, n: nat)
    requires Keeps(next, inv, among) && inv(st) && (forall a :: a in actions ==> among(a))
    requires Possible(next, st, actions) && n <= |actions|
    ensures inv(After(next, st, actions, n))
    decreases n
  {
    if n > 0 {
      assert actions[0] in actions;
      AlwaysHolds(next, inv, among, next(st, actions[0]).value, actions[1..], n - 1);
    }
  }

  /** One more action at the end. */
  lemma {:induction false} Append<S, A>(next: (S, A) -> Option<S>, st: S, actions: seq<A>, a: A)
    requires Possible(next, st, actions) && next(After(next, st, actions, |actions|), a).Some?
    ensures Possible(next, st, actions + [a])
    ensures After(next, st, actions + [a], |actions| + 1) == next(After(next, st, actions, |actions|), a).value
    decreases |actions|
  {
    if actions == [] {
      assert actions + [a] == [a];
      var one := next(st, a).value;
      assert After(next, one, [], 0) == one;
    } else {
      Append(next, next(st, actions[0]).value, actions[1..], a);
      assert (actions + [a])[1..] == actions[1..] + [a];
    }
  }
}
