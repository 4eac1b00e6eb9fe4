/**
  The per-tick "update every entity, then keep those that survive" pass the
  simulation runs over each of its collections. A context `c` carries what
  the step reads (time step, canvas, player, ...); named step and keep
  functions are passed in, so one definition serves every entity kind.
*/
module Sweeps {

  /**
    Steps every element in order and keeps the stepped elements that pass
    `keep`, preserving their order.
  */
  function Sweep<C, T>(c: C, s: seq<T>, step: (C, T) -> T, keep: (C, T) -> bool): (r: seq<T>)
    ensures |r| <= |s|
    ensures forall k :: 0 <= k < |r| ==> keep(c, r[k])
  {
    if s == [] then []
    else
      var y := step(c, s[|s| - 1]);
      Sweep(c, s[..|s| - 1], step, keep) + (if keep(c, y) then [y] else [])
  }

  /**
    `filter` with a callback that first updates the element it is given:
    the loop the simulation runs over a collection each tick.
  */
  method Filter<C, T>(c: C, s: seq<T>, step: (C, T) -> T, keep: (C, T) -> bool) returns (r: seq<T>)
    ensures r == Sweep(c, s, step, keep)
  {
    r := [];
    var i := 0;
    while i < |s|
      invariant 0 <= i <= |s|
      invariant r == Sweep(c, s[..i], step, keep)
    {
      SweepStep(c, s, step, keep, i);
      var y := step(c, s[i]);
      if keep(c, y) {
        r := r + [y];
      }
      i := i + 1;
    }
    assert s[..|s|] == s;
  }

  /** How many elements of `s` satisfy `p`. */
  function Count<C, T>(c: C, s: seq<T>, p: (C, T) -> bool): (n: nat)
    ensures n <= |s|
  {
    if s == [] then 0 else Count(c, s[..|s| - 1], p) + (if p(c, s[|s| - 1]) then 1 else 0)
  }

  /** Nothing that survives its step is lost by the sweep. */
  lemma {:induction false} SweepKeepsSurvivors<C, T>(c: C, s: seq<T>, step: (C, T) -> T, keep: (C, T) -> bool, k: nat)
    requires k < |s| && keep(c, step(c, s[k]))
    ensures step(c, s[k]) in Sweep(c, s, step, keep)
  {
    var n := |s| - 1;
    if k < n {
      assert s[..n][k] == s[k];
      SweepKeepsSurvivors(c, s[..n], step, keep, k);
    }
  }

  /** Every element of a sweep's result is the step of some input element. */
  lemma {:induction false} SweepOnlySteps<C, T>(c: C, s: seq<T>, step: (C, T) -> T, keep: (C, T) -> bool, y: T)
    requires y in Sweep(c, s, step, keep)
    ensures exists k :: 0 <= k < |s| && y == step(c, s[k])
  {
    var n := |s| - 1;
    var last := step(c, s[n]);
    if y in Sweep(c, s[..n], step, keep) {
      SweepOnlySteps(c, s[..n], step, keep, y);
      var k :| 0 <= k < n && y == step(c, s[..n][k]);
      assert s[..n][k] == s[k];
    } else {
      assert y == last;
    }
  }

  /** Sweeping one element past a prefix. */
  lemma SweepStep<C, T>(c: C, s: seq<T>, step: (C, T) -> T, keep: (C, T) -> bool, i: nat)
    requires i < |s|
    ensures Sweep(c, s[..i + 1], step, keep)
         == Sweep(c, s[..i], step, keep) + (if keep(c, step(c, s[i])) then [step(c, s[i])] else [])
  {
    assert s[..i + 1][..i] == s[..i];
  }
}
