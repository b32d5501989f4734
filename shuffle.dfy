/**
 * `shuffleArray` (core/workoutEngine.ts): Fisher–Yates over a copy of the
 * input.  The loop walks `i` from the last index down to 1 and swaps
 * position `i` with a drawn position `j` in `[0, i]`.
 */
module Shuffle {
  import opened Random

  /** The destructuring swap `[s[i], s[j]] = [s[j], s[i]]`. */
  function Swap<T>(s: seq<T>, i: nat, j: nat): (r: seq<T>)
    requires i < |s| && j < |s|
    ensures |r| == |s| && r[i] == s[j] && r[j] == s[i]
    ensures forall k :: 0 <= k < |s| && k != i && k != j ==> r[k] == s[k]
  {
    s[i := s[j]][j := s[i]]
  }

  /** A swap permutes the list. */
  lemma SwapPermutes<T>(s: seq<T>, i: nat, j: nat)
    requires i < |s| && j < |s|
    ensures multiset(Swap(s, i, j)) == multiset(s)
  {
  }

  /**
   * The loop from position `i` down to 1; the pick for position `i` uses
   * draw number `start`, the next position the draw after it.
   */
  function Sweep<T>(s: seq<T>, draw: nat -> real, start: nat, i: nat): (r: seq<T>)
    requires UnitDraws(draw) && i < |s|
    ensures |r| == |s|
    decreases i
  {
    if i == 0 then s
    else Sweep(Swap(s, i, Scale(draw(start), i + 1)), draw, start + 1, i - 1)
  }

  /** The sweep only rearranges: every element keeps its multiplicity. */
  lemma {:induction false} SweepPermutes<T>(s: seq<T>, draw: nat -> real, start: nat, i: nat)
    requires UnitDraws(draw) && i < |s|
    ensures multiset(Sweep(s, draw, start, i)) == multiset(s)
    decreases i
  {
    if i > 0 {
      var j := Scale(draw(start), i + 1);
      SwapPermutes(s, i, j);
      SweepPermutes(Swap(s, i, j), draw, start + 1, i - 1);
    }
  }

  /** What `shuffleArray(s)` returns when its draws begin at `start`. */
  function Shuffled<T>(s: seq<T>, draw: nat -> real, start: nat): (r: seq<T>)
    requires UnitDraws(draw)
    ensures |r| == |s| && multiset(r) == multiset(s)
  {
    if |s| <= 1 then s
    else
      SweepPermutes(s, draw, start, |s| - 1);
      Sweep(s, draw, start, |s| - 1)
  }

  /** The number of `Math.random()` calls `shuffleArray` makes on a list of length `n`. */
  function Draws(n: nat): (d: nat)
    ensures n <= 1 ==> d == 0
    ensures n >= 1 ==> d == n - 1
  {
    if n <= 1 then 0 else n - 1
  }

  /** No two positions of `s` carry the same key. */
  ghost predicate DistinctKeys<T, K>(s: seq<T>, key: T -> K) {
    forall a, b :: 0 <= a < b < |s| ==> key(s[a]) != key(s[b])
  }

  lemma SwapKeepsDistinct<T, K>(s: seq<T>, i: nat, j: nat, key: T -> K)
    requires i < |s| && j < |s| && DistinctKeys(s, key)
    ensures DistinctKeys(Swap(s, i, j), key)
  {
    var r := Swap(s, i, j);
    forall a, b | 0 <= a < b < |r|
      ensures key(r[a]) != key(r[b])
    {
      var a' := if a == i then j else if a == j then i else a;
      var b' := if b == i then j else if b == j then i else b;
      assert r[a] == s[a'] && r[b] == s[b'] && a' != b';
      if a' > b' {
        assert key(s[b']) != key(s[a']);
      }
    }
  }

  /** Shuffling keeps a list free of repeated keys (e.g. of repeated exercise names). */
  lemma {:induction false} SweepKeepsDistinct<T, K>(s: seq<T>, draw: nat -> real, start: nat, i: nat, key: T -> K)
    requires UnitDraws(draw) && i < |s| && DistinctKeys(s, key)
    ensures DistinctKeys(Sweep(s, draw, start, i), key)
    decreases i
  {
    if i > 0 {
      var t := Swap(s, i, Scale(draw(start), i + 1));
      SwapKeepsDistinct(s, i, Scale(draw(start), i + 1), key);
      SweepKeepsDistinct(t, draw, start + 1, i - 1, key);
    }
  }

  lemma ShuffledKeepsDistinct<T, K>(s: seq<T>, draw: nat -> real, start: nat, key: T -> K)
    requires UnitDraws(draw) && DistinctKeys(s, key)
    ensures DistinctKeys(Shuffled(s, draw, start), key)
  {
    if |s| > 1 {
      SweepKeepsDistinct(s, draw, start, |s| - 1, key);
    }
  }

  /**
   * The shuffle itself: copies `a`, leaves `a` as it was, and consumes one
   * draw per position from the last down to 1.
   */
  method ShuffleArray<T>(a: array<T>, rng: RandomSource) returns (b: array<T>)
    requires rng.Valid()
    modifies rng
    ensures fresh(b) && a[..] == old(a[..])
    ensures b[..] == Shuffled(a[..], rng.draw, old(rng.used))
    ensures rng.used == old(rng.used) + Draws(a.Length)
  {
    b := new T[a.Length](k reads a requires 0 <= k < a.Length => a[k]);
    if a.Length <= 1 {
      return;
    }
    ghost var s := a[..];
    ghost var start := rng.used;
    assert b[..] == s;
    var i := a.Length - 1;
    assert Sweep(s, rng.draw, start, a.Length - 1) == Sweep(b[..], rng.draw, rng.used, i);
    while i > 0
      invariant 0 <= i < a.Length == b.Length
      invariant rng.used == start + (a.Length - 1 - i)
      invariant Sweep(s, rng.draw, start, a.Length - 1) == Sweep(b[..], rng.draw, rng.used, i)
      decreases i
    {
      ghost var before := b[..];
      ghost var pre := rng.used;
      var j := rng.NextIndex(i + 1);
      assert Sweep(before, rng.draw, pre, i) == Sweep(Swap(before, i, j), rng.draw, rng.used, i - 1);
      b[i], b[j] := b[j], b[i];
      assert b[..] == Swap(before, i, j);
      i := i - 1;
    }
  }
}
