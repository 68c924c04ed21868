/** Loops that treat the highest item first. */
module Descending {

  /** The state after the items from k up, the last one first. */
  function Downward<S, T>(step: (S, nat, T) -> S, s: S, xs: seq<T>, k: nat): S
    requires k <= |xs|
    decreases |xs| - k
  {
    if k == |xs| then s else step(Downward(step, s, xs, k + 1), k, xs[k])
  }

  /** One more step, as a loop makes it: `now` is the state so far. */
  lemma NextDown<S, T>(step: (S, nat, T) -> S, s: S, xs: seq<T>, k: nat, now: S)
    requires k < |xs| && now == Downward(step, s, xs, k + 1)
    ensures Downward(step, s, xs, k) == step(now, k, xs[k])
  {
  }

  ghost predicate Keeps<S(!new), T>(step: (S, nat, T) -> S, xs: seq<T>, inv: (S, nat) -> bool)
  {
    forall s, i: nat | i < |xs| && inv(s, i + 1) :: inv(step(s, i, xs[i]), i)
  }

  /** What every step keeps holds at the end. */
  lemma {:induction false} DownwardKeeps<S(!new), T>(step: (S, nat, T) -> S, s: S, xs: seq<T>, k: nat,
                                                     inv: (S, nat) -> bool)
    requires k <= |xs| && inv(s, |xs|) && Keeps(step, xs, inv)
    ensures inv(Downward(step, s, xs, k), k)
    decreases |xs| - k
  {
    if k < |xs| { DownwardKeeps(step, s, xs, k + 1, inv); }
  }

  /** Steps that change nothing change nothing. */
  lemma {:induction false} DownwardRests<S, T>(step: (S, nat, T) -> S, s: S, xs: seq<T>, i: nat, k: nat)
    requires k <= i <= |xs|
    requires var d := Downward(step, s, xs, i); forall j: nat | j < i :: step(d, j, xs[j]) == d
    ensures Downward(step, s, xs, k) == Downward(step, s, xs, i)
    decreases i - k
  {
    if k < i { DownwardRests(step, s, xs, i, k + 1); }
  }
}
