/**
 * `random.shuffle(x)` as CPython's `random` module performs it: for `i` from
 * `len(x) - 1` down to 1, swap `x[i]` with `x[j]`, `j` drawn uniformly from
 * `0..i`. The draws are an input: the k-th draw, reduced modulo `i + 1`, is the
 * `j` of the k-th swap; a draw that is not supplied leaves its element in place.
 */
module Shuffling {

  /** The swaps for positions `i`, `i - 1`, ..., 1, consuming `draws` in order. */
  function ShuffleDown<T>(xs: seq<T>, i: nat, draws: seq<nat>): (r: seq<T>)
    requires i < |xs|
    ensures |r| == |xs|
    decreases i
  {
    if i == 0 then xs
    else
      var j := if draws != [] then draws[0] % (i + 1) else i;
      ShuffleDown(xs[i := xs[j]][j := xs[i]], i - 1, if draws != [] then draws[1..] else [])
  }

  /** `random.shuffle(xs)`. */
  function Shuffle<T>(xs: seq<T>, draws: seq<nat>): (r: seq<T>)
    ensures |r| == |xs|
  {
    if xs == [] then [] else ShuffleDown(xs, |xs| - 1, draws)
  }

  /** Each swap exchanges two elements, so the swaps only reorder. */
  lemma {:induction false} ShuffleDownPermutes<T>(xs: seq<T>, i: nat, draws: seq<nat>)
    requires i < |xs|
    ensures multiset(ShuffleDown(xs, i, draws)) == multiset(xs)
    decreases i
  {
    if i > 0 {
      var j := if draws != [] then draws[0] % (i + 1) else i;
      var swapped := xs[i := xs[j]][j := xs[i]];
      assert multiset(swapped) == multiset(xs);
      ShuffleDownPermutes(swapped, i - 1, if draws != [] then draws[1..] else []);
    }
  }

  /** `random.shuffle` reorders its list, whatever the draws: the result holds the same elements, as often. */
  lemma ShufflePermutes<T>(xs: seq<T>, draws: seq<nat>)
    ensures multiset(Shuffle(xs, draws)) == multiset(xs)
  {
    if xs != [] {
      ShuffleDownPermutes(xs, |xs| - 1, draws);
    }
  }
}
