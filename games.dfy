/**
 * The game controller: a board and dice it shares, and a FIFO queue of
 * players. Each turn pops the front player, rolls, moves, resolves a
 * jump, checks for an exact win and, unless the player won, pushes them
 * back.
 */
module Games {
  import opened Options
  import opened Jumpers
  import opened Boards
  import opened Players
  import opened DiceRolls
  import opened Rules

  class Game {
    const board: Board
    const dice: Dice
    var players: seq<Player>
    const winScore: int
    /** Every player the game was given; the queue only ever holds these. */
    ghost const roster: set<Player>

    ghost predicate Valid()
      reads this, board
    {
      board.Valid() && winScore == board.sz &&
      forall p :: p in players ==> p in roster
    }

    /** The queue and every player's position. */
    ghost function Snapshot(): State
      reads this, roster
    {
      State(players, map p | p in roster :: p.pos)
    }

    /** The target is the board size; the players queue up in the order given. */
    constructor (b: Board, d: Dice, pList: seq<Player>)
      requires b.Valid()
      ensures Valid()
      ensures board == b && dice == d && winScore == b.sz && players == pList
      ensures roster == set p | p in pList
    {
      board := b;
      dice := d;
      winScore := b.GetSize();
      players := pList;
      roster := set p | p in pList;
    }

    /**
     * One pass of the game loop's body, with the raw die draws of this
     * turn supplied. The queue must not be empty and the cell reached
     * must exist, since the source checks neither.
     */
    method Turn(raw: seq<int>) returns (entry: Entry, won: bool)
      requires Valid() && |players| > 0
      requires dice.faces != 0 && |raw| == Draws(dice.count) && Nonnegative(raw)
      requires CanLand(players[0].pos, DiceSum(raw, dice.faces), board.cells, winScore)
      modifies this, players[0]
      ensures Valid()
      ensures
        var t := PlayTurn(old(Snapshot()), DiceSum(raw, dice.faces), board.cells, winScore);
        Snapshot() == t.state && entry == t.entry && won == t.won
    {
      ghost var before := Snapshot();
      var curr := players[0];
      players := players[1..];

      var move := dice.Roll(raw);
      var nextPos := curr.pos + move;

      var outcome: Outcome;
      if nextPos > winScore {
        outcome := Overshot;
      } else {
        curr.pos := nextPos;
        var cell := board.GetCell(curr.pos);
        if cell.HasJump() {
          outcome := Jumped(cell.jumper.value);
          curr.pos := cell.jumper.value.GetEnd();
        } else {
          outcome := Moved;
        }
      }

      won := curr.pos == winScore;
      if !won {
        players := players + [curr];
      }
      entry := Entry(curr, move, outcome, curr.pos);

      assert Snapshot().pos == before.pos[curr := curr.pos];
    }

    /**
     * The game loop over a finite supply of turns: plays until someone
     * wins or the supply runs out, and returns the winner and the turn log.
     */
    method Play(rawTurns: seq<seq<int>>) returns (winner: Option<Player>, log: seq<Entry>)
      requires Valid() && Playable(Snapshot(), board.cells, winScore)
      requires dice.faces != 0
      requires forall t :: 0 <= t < |rawTurns| ==>
        |rawTurns[t]| == Draws(dice.count) && Nonnegative(rawTurns[t])
      modifies this, roster
      ensures Valid()
      ensures
        var r := Run(old(Snapshot()), Rolls(rawTurns, dice.faces), board.cells, winScore);
        Snapshot() == r.state && winner == r.winner && log == r.log
    {
      ghost var rolls := Rolls(rawTurns, dice.faces);
      ghost var whole := Run(Snapshot(), rolls, board.cells, winScore);
      winner := None;
      log := [];
      var t := 0;
      while t < |rawTurns| && winner == None
        invariant Valid() && 0 <= t <= |rawTurns|
        invariant winner == None ==>
          Continues(whole, log, Snapshot(), rolls[t..], board.cells, winScore)
        invariant winner != None ==> whole == Record(Snapshot(), log, winner)
        decreases |rawTurns| - t
      {
        ContinuesStep(whole, log, Snapshot(), rolls[t..], board.cells, winScore);
        assert rolls[t..][1..] == rolls[t + 1..];
        var entry, won := Turn(rawTurns[t]);
        log := log + [entry];
        if won {
          winner := Some(entry.player);
        }
        t := t + 1;
      }
    }
  }

  /** The board, players and dice of the source's setup routine. */
  method Setup() returns (g: Game, alice: Player, bob: Player)
    ensures fresh(g) && fresh(alice) && fresh(bob) && fresh(g.board) && alice != bob
    ensures g.Valid() && g.players == [alice, bob] && g.roster == {alice, bob}
    ensures alice.pos == 0 && bob.pos == 0 && g.dice.count == 1 && g.dice.faces == 6
    ensures g.winScore == 100 && |g.board.cells| == 101
    ensures g.board.cells[3].jumper == Some(Ladder(3, 30))
    ensures forall i :: 1 <= i <= 6 && i != 3 ==> !g.board.cells[i].HasJump()
    ensures JumpsOnBoard(g.board.cells, 100)
  {
    var b := new Board(100);
    b.AddJumper(14, 4);
    b.AddJumper(99, 10);
    b.AddJumper(3, 30);
    b.AddJumper(50, 95);
    alice := new Player("Alice");
    bob := new Player("Bob");
    var d := new Dice(1, 6);
    g := new Game(b, d, [alice, bob]);
  }

  /**
   * A client of one turn: Alice's first draw shows a 3, which takes the
   * Ladder at 3 up to 30, and Bob is next.
   */
  method TurnExample() {
    var g, alice, bob := Setup();
    assert DiceSum([2], 6) == 3;
    var entry, won := g.Turn([2]);
    assert entry.outcome == Jumped(Ladder(3, 30));
    assert entry.pos == 30 && !won;
    assert g.players == [bob, alice];
  }

  /**
   * A client of the game loop: two turns in which nobody can reach 100.
   * Alice and Bob move in queue order, everyone stays on the board, and a
   * player outside the game is untouched.
   */
  method PlayExample() {
    var g, alice, bob := Setup();
    var carol := new Player("Carol");
    ghost var s := g.Snapshot();
    assert OnBoard(s, 100) && Playable(s, g.board.cells, 100);
    var winner, log := g.Play([[2], [5]]);
    ghost var rolls := Rolls([[2], [5]], 6);
    RunStopsAtWin(s, rolls, g.board.cells, 100);
    RunRoundRobin(s, rolls, g.board.cells, 100);
    RunStaysOnBoard(s, rolls, g.board.cells, 100);
    assert carol.pos == 0;
    assert |log| <= 2;
    assert |log| > 0 ==> log[0].player == alice;
    assert |log| > 1 ==> log[1].player == bob;
    assert 0 <= alice.pos <= 100 && 0 <= bob.pos <= 100;
  }
}
