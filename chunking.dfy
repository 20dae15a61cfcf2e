/** Cutting a list into consecutive groups of a fixed size, as both
    `groupSongs` and `createSongPlayers` do. `Chunks` is the reference
    definition; the lemmas below state what the groups are. */
module Chunking {

  function Min(a: int, b: int): int
  {
    if a <= b then a else b
  }

  /** `Array.prototype.slice(start, end)` for a non-negative `start` and
      `end` (the only kind both callers pass): the elements from `start` up
      to, but excluding, `end`, with `end` clamped to the length; empty when
      the window is empty. */
  function Slice<T>(s: seq<T>, start: nat, end: nat): (r: seq<T>)
    ensures |r| == if start < |s| && start < end then Min(end, |s|) - start else 0
    ensures forall k :: 0 <= k < |r| ==> r[k] == s[start + k]
  {
    if start < |s| && start < end then s[start..Min(end, |s|)] else []
  }

  /** The consecutive groups of `g` elements of `s`; the last one holds
      what is left over. */
  function Chunks<T>(s: seq<T>, g: nat): (r: seq<seq<T>>)
    requires g >= 1
    ensures |r| == 0 <==> |s| == 0
    decreases |s|
  {
    if |s| == 0 then []
    else
      var k := Min(g, |s|);
      [s[..k]] + Chunks(s[k..], g)
  }

  /** One pass of the slicing loops: the groups of the suffix from `start`
      are the slice `[start, start + g)` followed by the groups of the
      suffix after that slice. */
  lemma ChunksStep<T>(s: seq<T>, g: nat, start: nat)
    requires g >= 1 && start < |s|
    ensures Chunks(s[start..], g) == [Slice(s, start, start + g)] + Chunks(s[Min(start + g, |s|)..], g)
  {
    var m := Min(g, |s| - start);
    assert s[start..][..m] == Slice(s, start, start + g);
    assert s[start..][m..] == s[Min(start + g, |s|)..];
  }

  /** The bookkeeping of the slicing loops: if the groups cut so far, `done`,
      followed by the groups of the rest from `start` make up all groups, the
      same holds once the slice at `start` is cut and `start` moves on by `g`. */
  lemma ChunksLoopStep<T>(s: seq<T>, g: nat, done: seq<seq<T>>, start: nat, done': seq<seq<T>>, start': nat)
    requires g >= 1 && start < |s|
    requires Chunks(s, g) == done + Chunks(s[Min(start, |s|)..], g)
    requires done' == done + [Slice(s, start, start + g)] && start' == start + g
    ensures Chunks(s, g) == done' + Chunks(s[Min(start', |s|)..], g)
  {
    ChunksStep(s, g, start);
    assert Min(start, |s|) == start;
  }

  /** Concatenation of a list of groups, in order. */
  function Flatten<T>(groups: seq<seq<T>>): seq<T>
  {
    if |groups| == 0 then [] else groups[0] + Flatten(groups[1..])
  }

  /** There are ceil(|s| / g) groups. */
  lemma {:induction false} ChunksCount<T>(s: seq<T>, g: nat)
    requires g >= 1
    ensures |Chunks(s, g)| == (|s| + g - 1) / g
    decreases |s|
  {
    if |s| == 0 {
      DivUnique(g - 1, g, 0, g - 1);
    } else if |s| <= g {
      DivUnique(|s| + g - 1, g, 1, |s| - 1);
    } else {
      ChunksCount(s[g..], g);
      DivStep(|s| - 1, g);
    }
  }

  /** Adding `g` to a non-negative numerator adds one to its quotient by `g`. */
  lemma DivStep(x: nat, g: nat)
    requires g >= 1
    ensures (x + g) / g == x / g + 1
  {
    var q, r := x / g, x % g;
    assert x == q * g + r && 0 <= r < g;
    assert x + g == (q + 1) * g + r by {
      assert (q + 1) * g == q * g + g;
    }
    DivUnique(x + g, g, q + 1, r);
  }

  /** A quotient is determined by any decomposition with a remainder below `g`. */
  lemma DivUnique(a: nat, g: nat, q: int, r: int)
    requires g >= 1 && a == q * g + r && 0 <= r < g
    ensures a / g == q
  {
    var q', r' := a / g, a % g;
    assert a == q' * g + r' && 0 <= r' < g;
    assert (q - q') * g == r' - r by {
      assert (q - q') * g == q * g - q' * g;
    }
    MulAwayFromZero(q - q', g);
  }

  /** A non-zero multiple of `g` is at least `g` away from zero. */
  lemma MulAwayFromZero(d: int, g: nat)
    requires g >= 1
    ensures d >= 1 ==> d * g >= g
    ensures d <= -1 ==> d * g + g <= 0
  {
    if d >= 1 {
      assert d * g == (d - 1) * g + g;
      assert (d - 1) * g >= 0;
    } else if d <= -1 {
      assert d * g == (d + 1) * g - g;
      assert (d + 1) * g <= 0;
    }
  }

  /** Concatenating the groups in order gives back the list. */
  lemma {:induction false} ChunksFlatten<T>(s: seq<T>, g: nat)
    requires g >= 1
    ensures Flatten(Chunks(s, g)) == s
    decreases |s|
  {
    if |s| > 0 {
      var k := Min(g, |s|);
      ChunksFlatten(s[k..], g);
      assert Chunks(s, g)[1..] == Chunks(s[k..], g);
      assert s == s[..k] + s[k..];
    }
  }

  /** Every group is non-empty and holds at most `g` elements; every group
      but the last holds exactly `g`. */
  lemma {:induction false} ChunksSizes<T>(s: seq<T>, g: nat)
    requires g >= 1
    ensures forall k :: 0 <= k < |Chunks(s, g)| ==> 1 <= |Chunks(s, g)[k]| <= g
    ensures forall k :: 0 <= k < |Chunks(s, g)| - 1 ==> |Chunks(s, g)[k]| == g
    decreases |s|
  {
    if |s| > 0 {
      var k := Min(g, |s|);
      ChunksSizes(s[k..], g);
      var c := Chunks(s, g);
      assert c[1..] == Chunks(s[k..], g);
      forall j | 0 <= j < |c|
        ensures 1 <= |c[j]| <= g
        ensures j < |c| - 1 ==> |c[j]| == g
      {
        if j > 0 {
          assert c[j] == c[1..][j - 1];
        } else if j < |c| - 1 {
          assert |s| > g;
        }
      }
    }
  }

  /** Slicing a suffix is slicing the whole list further on. */
  lemma SliceOfSuffix<T>(s: seq<T>, m: nat, start: nat, end: nat)
    requires m <= |s|
    ensures Slice(s[m..], start, end) == Slice(s, start + m, end + m)
  {
  }

  lemma MulPred(k: nat, g: nat)
    requires k >= 1
    ensures (k - 1) * g >= 0 && (k - 1) * g + g == k * g
  {
  }

  /** Group `k` is the slice from `k * g` to `k * g + g`: the window that the
      source's loops cut on their `k`-th pass. */
  lemma {:induction false} ChunkAt<T>(s: seq<T>, g: nat, k: nat)
    requires g >= 1
    requires k < |Chunks(s, g)|
    ensures k * g < |s|
    ensures Chunks(s, g)[k] == Slice(s, k * g, k * g + g)
    decreases k
  {
    if k > 0 {
      var m := Min(g, |s|);
      var rest := Chunks(s[m..], g);
      assert Chunks(s, g)[k] == rest[k - 1];
      ChunkAt(s[m..], g, k - 1);
      assert m == g;
      MulPred(k, g);
      var p: nat := (k - 1) * g;
      assert rest[k - 1] == Slice(s[g..], p, p + g);
      SliceOfSuffix(s, g, p, p + g);
      assert p + g == k * g;
    }
  }
}
