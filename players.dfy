/** A player: a name and a position that only the game changes. */
module Players {

  class Player {
    const name: string
    var pos: int

    /** A new player starts at position 0, before the first cell is reached. */
    constructor (n: string)
      ensures name == n && pos == 0
    {
      name := n;
      pos := 0;
    }
  }
}
