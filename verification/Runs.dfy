/** Runs of a machine given by a step function.

    Every machine in this project is a total function `step(state, action)`; an action that is not
    enabled leaves the state as it is.  A run is a list of actions, so "for every list of actions"
    means "for every schedule of every length". */
module Runs {

  /** The state a run ends in. */
  ghost function After<S, A>(step: (S, A) -> S, s: S, acts: seq<A>): S {
    if acts == [] then s
    else step(After(step, s, acts[..|acts| - 1]), acts[|acts| - 1])
  }

  /** One more action takes one more step. */
  lemma Snoc<S, A>(step: (S, A) -> S, s: S, acts: seq<A>, a: A)
    ensures After(step, s, acts + [a]) == step(After(step, s, acts), a)
  {
    assert (acts + [a])[..|acts|] == acts;
  }

  /** Running `more` after `acts` is running `acts + more`. */
  lemma {:induction false} Concat<S, A>(step: (S, A) -> S, s: S, acts: seq<A>, more: seq<A>)
    ensures After(step, s, acts + more) == After(step, After(step, s, acts), more)
    decreases |more|
  {
    if more == [] {
      assert acts + more == acts;
    } else {
      var n := |more| - 1;
      assert acts + more == (acts + more[..n]) + [more[n]];
      Snoc(step, s, acts + more[..n], more[n]);
      Concat(step, s, acts, more[..n]);
    }
  }

  /** What the start satisfies and every step keeps, every run satisfies. */
  lemma {:induction false} Invariance<S(!new), A(!new)>(step: (S, A) -> S, inv: S -> bool, s: S, acts: seq<A>)
    requires inv(s)
    requires forall r, a :: inv(r) ==> inv(step(r, a))
    ensures inv(After(step, s, acts))
    decreases |acts|
  {
    if acts != [] {
      Invariance(step, inv, s, acts[..|acts| - 1]);
    }
  }

  lemma Cons<S, A>(step: (S, A) -> S, s: S, a: A, more: seq<A>)
    ensures After(step, s, [a] + more) == After(step, step(s, a), more)
  {
    Snoc(step, s, [], a);
    assert [] + [a] == [a];
    Concat(step, s, [a], more);
  }

  /** Every state on the way satisfies `p`, the first and the last too. */
  ghost predicate Throughout<S(!new), A(!new)>(step: (S, A) -> S, p: S -> bool, s: S, acts: seq<A>) {
    forall i :: 0 <= i <= |acts| ==> p(After(step, s, acts[..i]))
  }

  lemma ThroughoutSnoc<S(!new), A(!new)>(step: (S, A) -> S, p: S -> bool, s: S, acts: seq<A>)
    requires acts != []
    ensures Throughout(step, p, s, acts) <==>
            Throughout(step, p, s, acts[..|acts| - 1]) && p(After(step, s, acts))
  {
    var before := acts[..|acts| - 1];
    assert forall i :: 0 <= i < |acts| ==> before[..i] == acts[..i];
    assert acts[..|acts|] == acts;
    if Throughout(step, p, s, before) && p(After(step, s, acts)) {
      forall i | 0 <= i <= |acts|
        ensures p(After(step, s, acts[..i]))
      {
        assert i < |acts| ==> p(After(step, s, before[..i]));
      }
    }
  }

  /** A path of steps is a run. */
  lemma {:induction false} Path<S, A>(step: (S, A) -> S, path: seq<S>, acts: seq<A>)
    requires |path| == |acts| + 1
    requires forall i :: 0 <= i < |acts| ==> step(path[i], acts[i]) == path[i + 1]
    ensures After(step, path[0], acts) == path[|acts|]
    decreases |acts|
  {
    if acts != [] {
      Path(step, path[..|acts|], acts[..|acts| - 1]);
    }
  }

  lemma {:induction false} FreshNumber(used: set<nat>) returns (n: nat)
    ensures n !in used
    ensures forall k :: k in used ==> k < n
  {
    n := 0;
    if used != {} {
      var k :| k in used;
      var below := FreshNumber(used - {k});
      n := if below <= k then k + 1 else below;
      assert forall j :: j in used ==> j == k || j in used - {k};
    }
  }

  /** A run that never leaves a set of allowed actions. */
  ghost predicate Only<A>(allowed: A -> bool, acts: seq<A>) {
    forall i :: 0 <= i < |acts| ==> allowed(acts[i])
  }
}
