/**
 * `Math.random()` as an injected stream.  A source holds a fixed draw
 * function and a cursor; each call hands out the next draw, a real in
 * [0, 1).  Every random choice of the engine is `Math.floor(Math.random() * n)`,
 * which `Scale` models.
 */
module Random {
  /** Every draw lies in [0, 1), as `Math.random()` promises. */
  ghost predicate UnitDraws(draw: nat -> real) {
    forall k :: 0.0 <= draw(k) < 1.0
  }

  /** `Math.floor(x * n)`: an index of a list of length `n`. */
  function Scale(x: real, n: nat): (r: nat)
    requires 0.0 <= x < 1.0 && n > 0
    ensures r < n
  {
    var y := x * n as real;
    assert 0.0 <= y < n as real by {
      assert x * n as real < 1.0 * n as real;
    }
    y.Floor
  }

  /** The index is the floor of `x * n`. */
  lemma ScaleIsFloor(x: real, n: nat)
    requires 0.0 <= x < 1.0 && n > 0
    ensures Scale(x, n) as real <= x * n as real < Scale(x, n) as real + 1.0
  {
  }

  class RandomSource {
    const draw: nat -> real
    var used: nat

    ghost predicate Valid() {
      UnitDraws(draw)
    }

    constructor (draw: nat -> real)
      requires UnitDraws(draw)
      ensures Valid()
      ensures this.draw == draw && used == 0
    {
      this.draw := draw;
      used := 0;
    }

    /** `Math.floor(Math.random() * n)`: consumes one draw. */
    method NextIndex(n: nat) returns (j: nat)
      requires Valid() && n > 0
      modifies this
      ensures j == Scale(draw(old(used)), n) && j < n
      ensures used == old(used) + 1
    {
      j := Scale(draw(used), n);
      used := used + 1;
    }
  }
}
