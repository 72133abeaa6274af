/**
 * Dice: `count` dice with `faces` faces. The random source is a
 * parameter: each roll takes the raw values that the C library's
 * `rand()` would have produced (all nonnegative), one per die.
 */
module DiceRolls {

  predicate Nonnegative(xs: seq<int>) {
    forall i :: 0 <= i < |xs| ==> xs[i] >= 0
  }

  function Abs(x: int): nat {
    if x < 0 then -x else x
  }

  /** How many draws the loop `i = 0 .. count-1` makes. */
  function Draws(count: int): nat {
    if count < 0 then 0 else count
  }

  /**
   * One die: `raw % faces + 1`. For a nonnegative `raw` the remainder
   * truncated toward zero and Dafny's Euclidean remainder coincide, for
   * either sign of `faces`; a zero `faces` is a division by zero.
   */
  function Face(raw: int, faces: int): (f: int)
    requires raw >= 0 && faces != 0
    ensures 1 <= f <= Abs(faces)
  {
    raw % faces + 1
  }

  /** The sum of the faces shown for the raw draws, added in order. */
  function DiceSum(raw: seq<int>, faces: int): int
    requires faces != 0 && Nonnegative(raw)
  {
    if raw == [] then 0
    else DiceSum(raw[..|raw| - 1], faces) + Face(raw[|raw| - 1], faces)
  }

  /** Every die shows between 1 and |faces|, so n dice sum to between n and n * |faces|. */
  lemma {:induction false} DiceSumBounds(raw: seq<int>, faces: int)
    requires faces != 0 && Nonnegative(raw)
    ensures |raw| <= DiceSum(raw, faces) <= |raw| * Abs(faces)
  {
    if raw != [] {
      var init := raw[..|raw| - 1];
      DiceSumBounds(init, faces);
      assert |init| * Abs(faces) + Abs(faces) == |raw| * Abs(faces);
    }
  }

  class Dice {
    const count: int
    const faces: int

    constructor (c: int, f: int)
      ensures count == c && faces == f
    {
      count := c;
      faces := f;
    }

    /** Adds one face per die; with `count >= 1` the result lies in [count, count * |faces|]. */
    method Roll(raw: seq<int>) returns (sum: int)
      requires faces != 0
      requires |raw| == Draws(count) && Nonnegative(raw)
      ensures sum == DiceSum(raw, faces)
      ensures |raw| <= sum <= |raw| * Abs(faces)
    {
      sum := 0;
      var i := 0;
      while i < count
        invariant 0 <= i <= |raw|
        invariant sum == DiceSum(raw[..i], faces)
      {
        assert raw[..i + 1][..i] == raw[..i];
        sum := sum + Face(raw[i], faces);
        i := i + 1;
      }
      assert raw[..i] == raw;
      DiceSumBounds(raw, faces);
    }
  }
}
