/** The board: cells 0..size, each with at most one jump. */
module Boards {
  import opened Options
  import opened Jumpers

  /** A cell knows its own index and the jump placed on it, if any. */
  datatype Cell = Cell(id: int, jumper: Option<Jumper>) {
    predicate HasJump() {
      jumper.Some?
    }
  }

  /** How many cells the constructor's loop `i = 0 .. size` pushes. */
  function CellCount(size: int): nat {
    if size < 0 then 0 else size + 1
  }

  /**
   * The shape every board keeps: one cell per index, cell `i` has id `i`,
   * and a jump is stored at its own start cell.
   */
  predicate WellFormed(cells: seq<Cell>, size: int) {
    |cells| == CellCount(size) &&
    forall i :: 0 <= i < |cells| ==>
      cells[i].id == i && (cells[i].HasJump() ==> cells[i].jumper.value.start == i)
  }

  /** The cells after placing a jump from `s` to `e`; whatever was at `s` is replaced. */
  function Placed(cells: seq<Cell>, s: int, e: int): (r: seq<Cell>)
    requires 0 <= s < |cells|
    ensures |r| == |cells|
    ensures r[s].id == cells[s].id && r[s].jumper == Some(MakeJumper(s, e))
    ensures forall i :: 0 <= i < |cells| && i != s ==> r[i] == cells[i]
  {
    cells[s := cells[s].(jumper := Some(MakeJumper(s, e)))]
  }

  /** Placing a jump keeps the board well formed. */
  lemma PlacedWellFormed(cells: seq<Cell>, size: int, s: int, e: int)
    requires WellFormed(cells, size) && 0 <= s < |cells|
    ensures WellFormed(Placed(cells, s, e), size)
  {
  }

  /** A later placement at the same start replaces the earlier one. */
  lemma PlacedOverwrites(cells: seq<Cell>, s: int, e1: int, e2: int)
    requires 0 <= s < |cells|
    ensures Placed(Placed(cells, s, e1), s, e2) == Placed(cells, s, e2)
  {
  }

  /** Placements at different starts do not interfere. */
  lemma PlacedCommute(cells: seq<Cell>, s1: int, e1: int, s2: int, e2: int)
    requires 0 <= s1 < |cells| && 0 <= s2 < |cells| && s1 != s2
    ensures Placed(Placed(cells, s1, e1), s2, e2) == Placed(Placed(cells, s2, e2), s1, e1)
  {
  }

  class Board {
    const sz: int
    var cells: seq<Cell>

    ghost predicate Valid()
      reads this
    {
      WellFormed(cells, sz)
    }

    /** Pushes cells 0..s, none of them with a jump. */
    constructor (s: int)
      ensures sz == s && Valid()
      ensures |cells| == CellCount(s)
      ensures forall i :: 0 <= i < |cells| ==> cells[i] == Cell(i, None)
    {
      sz := s;
      var acc: seq<Cell> := [];
      var i := 0;
      while i <= s
        invariant 0 <= i <= CellCount(s)
        invariant |acc| == i
        invariant forall k :: 0 <= k < i ==> acc[k] == Cell(k, None)
      {
        acc := acc + [Cell(i, None)];
        i := i + 1;
      }
      cells := acc;
    }

    /**
     * Places a Snake (when `s > e`) or a Ladder at cell `s`, silently
     * replacing any earlier jump there. The start must index a cell.
     */
    method AddJumper(s: int, e: int)
      requires Valid() && 0 <= s < |cells|
      modifies this
      ensures Valid()
      ensures cells == Placed(old(cells), s, e)
    {
      PlacedWellFormed(cells, sz, s, e);
      cells := cells[s := cells[s].(jumper := Some(MakeJumper(s, e)))];
    }

    /** The cell at index `p`; there is no range check, so `p` must index a cell. */
    function GetCell(p: int): (c: Cell)
      reads this
      requires Valid() && 0 <= p < |cells|
      ensures c == cells[p] && c.id == p
      ensures c.HasJump() ==> c.jumper.value.start == p
    {
      cells[p]
    }

    /** The board size, which is one less than the number of cells. */
    function GetSize(): (n: int)
      reads this
      requires Valid()
      ensures n >= 0 ==> |cells| == n + 1
      ensures n < 0 ==> |cells| == 0
    {
      sz
    }
  }
}
