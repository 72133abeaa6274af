/**
 * Jump effects: a Snake or a Ladder that relocates a player who lands
 * on its start cell to its end cell.
 */
module Jumpers {

  /** The two kinds of jump, each carrying its start and end cell. */
  datatype Jumper = Snake(start: int, end: int) | Ladder(start: int, end: int) {

    /** The cell a player is moved to. */
    function GetEnd(): int {
      end
    }
  }

  /**
   * The jump registered for start `s` and end `e`: a Snake exactly when
   * `s > e`, so `s == e` gives a Ladder.
   */
  function MakeJumper(s: int, e: int): (j: Jumper)
    ensures j.start == s && j.GetEnd() == e
    ensures j.Snake? <==> s > e
    ensures j.Ladder? <==> s <= e
  {
    if s > e then Snake(s, e) else Ladder(s, e)
  }
}
