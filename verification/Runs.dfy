/** Runs of a labelled transition system given by a partial step function. */
module Runs {

  datatype Maybe<+S> = Stuck | To(state: S)

  /** The state after the labels `ls`, if each of them is enabled when its turn comes. */
  function Run<S, L>(next: (S, L) -> Maybe<S>, s: S, ls: seq<L>): Maybe<S>
    decreases |ls|
  {
    if ls == [] then To(s)
    else match next(s, ls[0])
      case Stuck => Stuck
      case To(t) => Run(next, t, ls[1..])
  }

  lemma RunCons<S, L>(next: (S, L) -> Maybe<S>, s: S, l: L, rest: seq<L>)
    requires next(s, l).To?
    ensures Run(next, s, [l] + rest) == Run(next, next(s, l).state, rest)
  {
    assert ([l] + rest)[1..] == rest;
  }

  lemma {:induction false} RunConcat<S, L>(next: (S, L) -> Maybe<S>, s: S, u: seq<L>, v: seq<L>)
    requires Run(next, s, u).To?
    ensures Run(next, s, u + v) == Run(next, Run(next, s, u).state, v)
    decreases |u|
  {
    if u == [] {
      assert u + v == v;
    } else {
      assert (u + v)[1..] == u[1..] + v;
      RunConcat(next, next(s, u[0]).state, u[1..], v);
    }
  }

  /** A run given state by state. */
  lemma {:induction false} RunThrough<S, L>(next: (S, L) -> Maybe<S>, states: seq<S>, ls: seq<L>)
    requires |states| == |ls| + 1
    requires forall k :: 0 <= k < |ls| ==> next(states[k], ls[k]) == To(states[k + 1])
    ensures Run(next, states[0], ls) == To(states[|ls|])
    decreases |ls|
  {
    if ls != [] {
      RunThrough(next, states[1..], ls[1..]);
    }
  }

  function Repeated<L>(ls: seq<L>, k: nat): seq<L> {
    if k == 0 then [] else Repeated(ls, k - 1) + ls
  }

  /** Labels that lead from each of a list of states to the next one can be repeated. */
  lemma {:induction false} RunRepeated<S, L>(next: (S, L) -> Maybe<S>, states: seq<S>, ls: seq<L>)
    requires states != [] && forall j :: 0 <= j < |states| - 1 ==> Run(next, states[j], ls) == To(states[j + 1])
    ensures Run(next, states[0], Repeated(ls, |states| - 1)) == To(states[|states| - 1])
    decreases |states|
  {
    var k := |states| - 1;
    if k > 0 {
      RunRepeated(next, states[..k], ls);
      RunConcat(next, states[0], Repeated(ls, k - 1), ls);
    }
  }
}
