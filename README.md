# Snakes and Ladders turn engine, in Dafny

This project models the turn engine of a small Snakes and Ladders program
(`SnakeandLadders.cpp`) and proves properties of it. The board is a table
of cells `0..size`. A cell may hold a Snake or a Ladder. A jump's kind
comes from its two ends: a Snake when the start is above the end,
otherwise a Ladder. `count` dice with `faces` faces are summed for each
roll. The players take turns from a FIFO queue:

- A roll that would pass the target (the board size) is forfeited.
- Otherwise the player moves, and a jump on the cell reached is taken in
  the same turn.
- The win is checked on the position after the jump, and only for exact
  equality with the target.
- A winner leaves the queue and play stops. Anyone else goes to the back
  of the queue.

Modules, one per part of the program:

- `Jumpers`: jumps as a datatype, `Snake | Ladder`, each with a start and
  an end.
- `Boards`: `Cell` is a datatype. `Board` is a class whose `cells: seq<Cell>`
  field is built by the constructor's loop and updated by `AddJumper`.
- `Players`: the `Player` class. Its position is the one field that the
  game changes.
- `DiceRolls`: the `Dice` class. `Roll` is a loop that adds one face per
  die, proved against the pure `DiceSum`.
- `Rules`: the turn and the game as pure functions over a state, with the
  lemmas. The state is the queue of players plus a map from player to
  position. Players are references, so one player queued twice shares a
  single position, as in the source.
- `Games`: the `Game` class. `Turn` is one pass of the loop body. `Play`
  runs the loop over a finite supply of turns. Both are proved equal to
  the pure `PlayTurn` and `Run`.

Randomness is a parameter. Each turn receives the raw values that the C
library's `rand()` would have returned, one per die. The die face is
`raw % faces + 1`. For a nonnegative dividend, C++'s truncating `%` agrees
with Dafny's Euclidean `%` for either sign of `faces`.

The code is modelled as written, not an idealised version of it:

- A second `addJumper` at the same cell silently replaces the first.
- `addJumper(s, s)` makes a Ladder.
- Nothing checks the range of a jump's ends or the board size. A negative
  size gives a board with no cells.
- There are no configuration or range errors. An out-of-range cell access
  is undefined behaviour in the source, so in-range access is a
  precondition here.
- On a board of size 0 the first player wins on the first turn, even
  though the roll overshoots, because the start position 0 already equals
  the target. `Rules.NoWinByOvershoot` therefore assumes that no queued
  player starts on the target.

## Model

| member | source | states |
|---|---|---|
| `Jumpers.MakeJumper` | SnakeandLadders.cpp:67-70 | the jump placed for `(s, e)` starts at `s` and its `getEnd()` is `e`; it is a Snake exactly when `s > e`, so `s == e` gives a Ladder |
| `Boards.Board.constructor` | SnakeandLadders.cpp:61-65 | a new board has `size + 1` cells (none for a negative size); cell `i` has id `i` and no jump; the board is well formed |
| `Boards.Placed` | SnakeandLadders.cpp:67-70 | placing a jump at `s` gives cell `s` the jump from `s` to `e` and keeps its id; every other cell is unchanged; the number of cells is unchanged |
| `Boards.Board.AddJumper` | SnakeandLadders.cpp:67-70 | the new cells are the old cells with the jump placed at `s`; the board stays well formed; `s` must index a cell because the source has no check |
| `Boards.PlacedOverwrites` | SnakeandLadders.cpp:68-69 | a later placement at the same cell replaces an earlier one completely |
| `Boards.PlacedCommute` | SnakeandLadders.cpp:67-70 | placements at different cells do not interfere, so their order does not matter |
| `Boards.PlacedWellFormed` | SnakeandLadders.cpp:67-70 | after a placement, every cell still has its own index as id and every jump is stored at its own start cell |
| `Boards.Board.GetCell` | SnakeandLadders.cpp:72 | returns the cell at index `p`, whose id is `p` and whose jump, if any, starts at `p`; `p` must index a cell |
| `Boards.Board.GetSize` | SnakeandLadders.cpp:73 | the size is one less than the number of cells (and there are no cells when it is negative) |
| `Players.Player.constructor` | SnakeandLadders.cpp:84 | a new player has the given name and starts at position 0 |
| `DiceRolls.Face` | SnakeandLadders.cpp:101 | one die shows a value between 1 and the number of faces (taken as an absolute value) |
| `DiceRolls.DiceSumBounds` | SnakeandLadders.cpp:98-104 | `n` dice sum to a value in `[n, n * faces]` |
| `DiceRolls.Dice.Roll` | SnakeandLadders.cpp:98-104 | the loop returns the sum of one face per draw; with `count >= 1` the result lies in `[count, count * faces]`, and it is 0 for `count <= 0` |
| `DiceRolls.Dice.constructor` | SnakeandLadders.cpp:94-96 | the dice keep the given count and number of faces |
| `Rules.Land` | SnakeandLadders.cpp:132-148 | overshoot holds exactly when `pos + roll > winScore`, and then the position is unchanged; a jump is taken exactly when the cell reached holds one, and the player lands on that jump's end in the same turn; otherwise the player ends on `pos + roll` |
| `Rules.TurnRotates` | SnakeandLadders.cpp:128-155 | the front player takes the turn; they win exactly when their position after the jump equals the target; a winner is removed from the queue and anyone else goes to the back; no one else's position changes |
| `Rules.TurnKeepsPlayable` | SnakeandLadders.cpp:132-146 | from nonnegative positions, with nonnegative jump ends and a nonnegative roll, the cell lookup is in range; a turn that does not win keeps the queue nonempty and all positions nonnegative |
| `Rules.TurnStaysOnBoard` | SnakeandLadders.cpp:120-146 | if every jump ends on the board and every player is on it, a turn looks up an existing cell and leaves every player on the board |
| `Rules.TurnStaysOffTarget` | SnakeandLadders.cpp:136-153 | starting from off the target, a turn that overshoots cannot win, and a turn that does not win leaves every queued player off the target |
| `Rules.Rolls` | SnakeandLadders.cpp:131 | one roll per turn, each the dice sum of that turn's draws and never negative |
| `Rules.RunStopsAtWin` | SnakeandLadders.cpp:127-156 | play stops at the first turn that ends exactly on the target; the player of that turn is the winner, and the winner's final position is the target; turn `t` uses roll `t`; without a winner every roll is used |
| `Rules.RunRoundRobin` | SnakeandLadders.cpp:127-156 | turn `t` is taken by the player at position `t mod N` of the starting queue of `N` entries |
| `Rules.RunStaysOnBoard` | SnakeandLadders.cpp:120-156 | if every jump ends on the board and every player starts on it, every turn ends on the board and every final position is on it |
| `Rules.NoWinByOvershoot` | SnakeandLadders.cpp:136-153 | if no queued player starts on the target, the winning turn is a plain move or a jump, never an overshoot |
| `Games.Game.constructor` | SnakeandLadders.cpp:117-122 | the target is the board size, read through `getSize`; the queue holds the players in the order given; the players whose positions the game tracks and may change are exactly those given |
| `Games.Game.Turn` | SnakeandLadders.cpp:128-155 | one pass of the loop body changes the queue and the current player's position exactly as `PlayTurn` does, and returns that turn's log entry and whether it won |
| `Games.Game.Play` | SnakeandLadders.cpp:124-157 | the loop ends with the queue, the positions, the winner and the turn log exactly as `Run` gives them for the rolls the dice produce |

## Left out

- Console output (`info()`, and the lines printed by `play`) is not modelled. Each turn's `Entry` keeps what those lines report: the player, the roll, the branch taken (an overshoot; a jump, with its kind, start and end; or a plain move) and the resulting position.
- `srand(time(0))` and `rand()` are not modelled. The raw values of `rand()` are parameters. Beyond being nonnegative, `RAND_MAX` is not modelled.
- 32-bit `int` overflow is not modelled: the dice sum and `pos + move` are unbounded integers.
- Allocation with `new`, pointer ownership, the virtual destructor and the leaked objects are not modelled. Cells and jumps are values.
- The unbounded `while (true)` is not modelled as such. `Games.Game.Play` runs over a finite sequence of turns, so whether a board with a Snake/Ladder cycle ever ends is not modelled.
- The hard-coded setup in `main` is not part of the model. `Games.Setup` builds it only so that `Games.TurnExample` and `Games.PlayExample` can act as clients of the contracts.
- `Games.Game.Play`: requires every jump end and every queued position to be nonnegative. This makes every cell lookup in range. The source also runs with negative jump ends, and its cell lookup may then go out of range (undefined behaviour).
- `Games.Game.Play`, `Games.Game.Turn`: require a nonempty queue, because `front()` on an empty queue is undefined behaviour.
- `DiceRolls.Dice.Roll`: requires `faces != 0`, because `rand() % 0` is a division by zero.
