/** The Fisher–Yates shuffle of `SongHandler.shuffleArray`, as a function on
    sequences. The random numbers are supplied: `rolls[k]` is the index the
    `k`-th pass draws, below the number of cells still to be shuffled. */
module Shuffling {

  /** The array after `[a[i], a[j]] = [a[j], a[i]]`: cell `i` gets the old
      `a[j]`, then cell `j` gets the old `a[i]`. */
  function Swap<T>(s: seq<T>, i: nat, j: nat): (r: seq<T>)
    requires i < |s| && j < |s|
    ensures |r| == |s| && r[i] == s[j] && r[j] == s[i]
    ensures forall k :: 0 <= k < |s| && k != i && k != j ==> r[k] == s[k]
  {
    s[i := s[j]][j := s[i]]
  }

  /** What `Math.floor(Math.random() * currentIndex)` can return on each of
      the `n` passes: on pass `k` the current index is `n - k`. */
  predicate ValidRolls(rolls: seq<nat>, n: nat)
  {
    |rolls| == n && forall k :: 0 <= k < n ==> rolls[k] < n - k
  }

  /** A swap keeps the multiset of elements. */
  lemma SwapPermutes<T>(s: seq<T>, i: nat, j: nat)
    requires i < |s| && j < |s|
    ensures multiset(Swap(s, i, j)) == multiset(s)
  {
    var t := s[i := s[j]];
    assert multiset(t) == multiset(s) - multiset{s[i]} + multiset{s[j]};
    assert multiset(t[j := s[i]]) == multiset(t) - multiset{t[j]} + multiset{s[i]};
  }

  /** The passes left when `c` cells remain unshuffled: the pass draws
      `rolls[|s| - c]` and swaps that cell with cell `c - 1`. The cells at
      or beyond `c` are already shuffled and no remaining pass touches them. */
  function ShuffleFrom<T>(s: seq<T>, rolls: seq<nat>, c: nat): (r: seq<T>)
    requires c <= |s| && ValidRolls(rolls, |s|)
    ensures |r| == |s|
    ensures forall k :: c <= k < |s| ==> r[k] == s[k]
    decreases c
  {
    if c == 0 then s
    else ShuffleFrom(Swap(s, c - 1, rolls[|s| - c]), rolls, c - 1)
  }

  /** The whole shuffle, starting with every cell unshuffled. */
  function Shuffled<T>(s: seq<T>, rolls: seq<nat>): (r: seq<T>)
    requires ValidRolls(rolls, |s|)
    ensures |r| == |s|
  {
    ShuffleFrom(s, rolls, |s|)
  }

  lemma {:induction false} ShuffleFromPermutes<T>(s: seq<T>, rolls: seq<nat>, c: nat)
    requires c <= |s| && ValidRolls(rolls, |s|)
    ensures multiset(ShuffleFrom(s, rolls, c)) == multiset(s)
    decreases c
  {
    if c > 0 {
      var t := Swap(s, c - 1, rolls[|s| - c]);
      SwapPermutes(s, c - 1, rolls[|s| - c]);
      ShuffleFromPermutes(t, rolls, c - 1);
    }
  }

  /** The shuffle is a permutation: same length, same multiset of songs. */
  lemma ShuffledIsPermutation<T>(s: seq<T>, rolls: seq<nat>)
    requires ValidRolls(rolls, |s|)
    ensures |Shuffled(s, rolls)| == |s|
    ensures multiset(Shuffled(s, rolls)) == multiset(s)
  {
    ShuffleFromPermutes(s, rolls, |s|);
  }

  /** The element that lands in the last cell is the one the first draw
      picked: each pass fixes the cell it swaps into. */
  lemma LastCellIsFirstDraw<T>(s: seq<T>, rolls: seq<nat>)
    requires |s| > 0 && ValidRolls(rolls, |s|)
    ensures |Shuffled(s, rolls)| == |s|
    ensures Shuffled(s, rolls)[|s| - 1] == s[rolls[0]]
  {
    var t := Swap(s, |s| - 1, rolls[0]);
    assert Shuffled(s, rolls) == ShuffleFrom(t, rolls, |s| - 1);
  }
}
