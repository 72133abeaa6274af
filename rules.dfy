/**
 * The rules of one turn and of a game played over a finite sequence of
 * rolls, as pure functions. The game's state is the turn-order queue of
 * players and the position of every player; players are references, so
 * the same player may stand in the queue more than once.
 */
module Rules {
  import opened Options
  import opened Jumpers
  import opened Boards
  import opened Players
  import opened DiceRolls

  /** Which branch a turn took. */
  datatype Outcome = Overshot | Jumped(jumper: Jumper) | Moved

  /** Where a roll leaves a player, and how. */
  datatype Landing = Landing(outcome: Outcome, pos: int)

  /** One turn as the game reports it: who rolled what and ended where. */
  datatype Entry = Entry(player: Player, roll: int, outcome: Outcome, pos: int)

  datatype State = State(queue: seq<Player>, pos: map<Player, int>)

  datatype TurnResult = TurnResult(state: State, entry: Entry, won: bool)

  /** A game record: the final state, one entry per turn played, and the winner, if any. */
  datatype Record = Record(state: State, log: seq<Entry>, winner: Option<Player>)

  /** The cell lookup of a turn is in range: the source does not check it. */
  predicate CanLand(pos: int, roll: int, cells: seq<Cell>, winScore: int) {
    pos + roll <= winScore ==> 0 <= pos + roll < |cells|
  }

  /**
   * The overshoot rule and the jump rule. A roll that would pass the
   * target leaves the player where they are; otherwise the player moves,
   * and a jump on the cell reached is taken in the same turn.
   */
  function Land(pos: int, roll: int, cells: seq<Cell>, winScore: int): (l: Landing)
    requires CanLand(pos, roll, cells, winScore)
    ensures l.outcome.Overshot? <==> pos + roll > winScore
    ensures l.outcome.Overshot? ==> l.pos == pos
    ensures l.outcome.Jumped? <==> pos + roll <= winScore && cells[pos + roll].HasJump()
    ensures l.outcome.Jumped? ==>
      l.outcome.jumper == cells[pos + roll].jumper.value && l.pos == l.outcome.jumper.GetEnd()
    ensures l.outcome.Moved? ==> l.pos == pos + roll && !cells[pos + roll].HasJump()
  {
    var next := pos + roll;
    if next > winScore then Landing(Overshot, pos)
    else match cells[next].jumper
      case Some(j) => Landing(Jumped(j), j.GetEnd())
      case None => Landing(Moved, next)
  }

  /**
   * One turn: the front player rolls and lands; the win is decided on the
   * position after any jump; a winner leaves the queue, anyone else goes
   * to its back.
   */
  function PlayTurn(s: State, roll: int, cells: seq<Cell>, winScore: int): TurnResult
    requires |s.queue| > 0 && s.queue[0] in s.pos
    requires CanLand(s.pos[s.queue[0]], roll, cells, winScore)
  {
    var p := s.queue[0];
    var l := Land(s.pos[p], roll, cells, winScore);
    var won := l.pos == winScore;
    var queue := if won then s.queue[1..] else s.queue[1..] + [p];
    TurnResult(State(queue, s.pos[p := l.pos]), Entry(p, roll, l.outcome, l.pos), won)
  }

  predicate JumpsNonNegative(cells: seq<Cell>) {
    forall i :: 0 <= i < |cells| && cells[i].HasJump() ==> cells[i].jumper.value.GetEnd() >= 0
  }

  /** Every jump leads to a cell of a board of size `winScore`. */
  predicate JumpsOnBoard(cells: seq<Cell>, winScore: int) {
    forall i :: 0 <= i < |cells| && cells[i].HasJump() ==>
      0 <= cells[i].jumper.value.GetEnd() <= winScore
  }

  /** Every player's position lies on the board. */
  predicate OnBoard(s: State, winScore: int) {
    forall p :: p in s.pos ==> 0 <= s.pos[p] <= winScore
  }

  /**
   * A state from which turns can be played with any nonnegative roll
   * without a lookup outside the board.
   */
  predicate Playable(s: State, cells: seq<Cell>, winScore: int) {
    |s.queue| > 0 && winScore < |cells| && JumpsNonNegative(cells) &&
    forall p :: p in s.queue ==> p in s.pos && s.pos[p] >= 0
  }

  /** From a playable state every lookup is in range, and a turn that does not win keeps it playable. */
  lemma TurnKeepsPlayable(s: State, roll: int, cells: seq<Cell>, winScore: int)
    requires Playable(s, cells, winScore) && roll >= 0
    ensures s.queue[0] in s.pos && CanLand(s.pos[s.queue[0]], roll, cells, winScore)
    ensures !PlayTurn(s, roll, cells, winScore).won ==>
      Playable(PlayTurn(s, roll, cells, winScore).state, cells, winScore)
  {
    assert s.queue[0] in s.queue;
  }

  /**
   * The turn rotates the queue, changes the mover's position and no one
   * else's, and wins exactly when the final position is the target.
   */
  lemma TurnRotates(s: State, roll: int, cells: seq<Cell>, winScore: int)
    requires |s.queue| > 0 && s.queue[0] in s.pos
    requires CanLand(s.pos[s.queue[0]], roll, cells, winScore)
    ensures var t := PlayTurn(s, roll, cells, winScore);
      t.entry.player == s.queue[0] && t.entry.roll == roll &&
      (t.won <==> t.entry.pos == winScore) &&
      t.state.queue == (if t.won then s.queue[1..] else s.queue[1..] + [s.queue[0]]) &&
      t.state.pos.Keys == s.pos.Keys && t.state.pos[s.queue[0]] == t.entry.pos &&
      (forall p :: p in s.pos && p != s.queue[0] ==> t.state.pos[p] == s.pos[p])
  {
  }

  /**
   * If all jumps stay on the board and all players are on it, a turn
   * looks up an existing cell and leaves every player on the board.
   */
  lemma TurnStaysOnBoard(s: State, roll: int, cells: seq<Cell>, winScore: int)
    requires |s.queue| > 0 && s.queue[0] in s.pos && roll >= 0
    requires |cells| == winScore + 1 && JumpsOnBoard(cells, winScore) && OnBoard(s, winScore)
    ensures CanLand(s.pos[s.queue[0]], roll, cells, winScore)
    ensures OnBoard(PlayTurn(s, roll, cells, winScore).state, winScore)
  {
  }

  /** The rolls as the dice give them, one per turn. */
  function Rolls(rawTurns: seq<seq<int>>, faces: int): (r: seq<int>)
    requires faces != 0 && forall t :: 0 <= t < |rawTurns| ==> Nonnegative(rawTurns[t])
    ensures |r| == |rawTurns| && Nonnegative(r)
    ensures forall t :: 0 <= t < |r| ==> r[t] == DiceSum(rawTurns[t], faces)
  {
    var r := seq(|rawTurns|, t requires 0 <= t < |rawTurns| => DiceSum(rawTurns[t], faces));
    assert forall t :: 0 <= t < |r| ==> r[t] >= 0 by {
      forall t | 0 <= t < |r| ensures r[t] >= 0 {
        DiceSumBounds(rawTurns[t], faces);
      }
    }
    r
  }

  /** One step of Run: the first turn, then the rest of the game if it did not win. */
  lemma RunStep(s: State, rolls: seq<int>, cells: seq<Cell>, winScore: int)
    requires Playable(s, cells, winScore) && Nonnegative(rolls) && rolls != []
    ensures s.queue[0] in s.pos && CanLand(s.pos[s.queue[0]], rolls[0], cells, winScore)
    ensures var t := PlayTurn(s, rolls[0], cells, winScore);
      var r := Run(s, rolls, cells, winScore);
      if t.won then r == Record(t.state, [t.entry], Some(t.entry.player))
      else (Playable(t.state, cells, winScore) &&
        r == Run(t.state, rolls[1..], cells, winScore).(log := [t.entry] + Run(t.state, rolls[1..], cells, winScore).log))
  {
    TurnKeepsPlayable(s, rolls[0], cells, winScore);
  }

  /** Plays turns until someone wins or the rolls run out. */
  function Run(s: State, rolls: seq<int>, cells: seq<Cell>, winScore: int): Record
    requires Playable(s, cells, winScore) && Nonnegative(rolls)
    decreases |rolls|
  {
    if rolls == [] then Record(s, [], None)
    else
      TurnKeepsPlayable(s, rolls[0], cells, winScore);
      var t := PlayTurn(s, rolls[0], cells, winScore);
      if t.won then Record(t.state, [t.entry], Some(t.entry.player))
      else
        var rest := Run(t.state, rolls[1..], cells, winScore);
        rest.(log := [t.entry] + rest.log)
  }

  /**
   * A game in progress: `log` has been played, and what is left of the
   * game from state `s` with the remaining `rolls` completes `whole`.
   */
  predicate Continues(whole: Record, log: seq<Entry>, s: State, rolls: seq<int>, cells: seq<Cell>, winScore: int) {
    Playable(s, cells, winScore) && Nonnegative(rolls) &&
    whole == Run(s, rolls, cells, winScore).(log := log + Run(s, rolls, cells, winScore).log)
  }

  /** Playing the next turn of a game in progress either ends it with that turn or leaves it in progress. */
  lemma ContinuesStep(whole: Record, log: seq<Entry>, s: State, rolls: seq<int>, cells: seq<Cell>, winScore: int)
    requires Continues(whole, log, s, rolls, cells, winScore) && rolls != []
    ensures s.queue[0] in s.pos && CanLand(s.pos[s.queue[0]], rolls[0], cells, winScore)
    ensures var t := PlayTurn(s, rolls[0], cells, winScore);
      if t.won then whole == Record(t.state, log + [t.entry], Some(t.entry.player))
      else Continues(whole, log + [t.entry], t.state, rolls[1..], cells, winScore)
  {
    RunStep(s, rolls, cells, winScore);
    var t := PlayTurn(s, rolls[0], cells, winScore);
    if !t.won {
      var rest := Run(t.state, rolls[1..], cells, winScore);
      assert log + ([t.entry] + rest.log) == (log + [t.entry]) + rest.log;
    }
  }

  /**
   * Win exactness: the game stops at the first turn that ends exactly on
   * the target, that turn's player is the winner, and without a winner
   * every roll was used. Turn `t` used roll `t`.
   */
  lemma {:induction false} RunStopsAtWin(s: State, rolls: seq<int>, cells: seq<Cell>, winScore: int)
    requires Playable(s, cells, winScore) && Nonnegative(rolls)
    ensures var r := Run(s, rolls, cells, winScore);
      |r.log| <= |rolls| &&
      (r.winner.None? ==> |r.log| == |rolls|) &&
      (forall t :: 0 <= t < |r.log| ==> r.log[t].roll == rolls[t]) &&
      (forall t :: 0 <= t < |r.log| ==>
        (r.log[t].pos == winScore <==> r.winner.Some? && t == |r.log| - 1)) &&
      (r.winner.Some? ==>
        |r.log| > 0 && r.winner.value == r.log[|r.log| - 1].player &&
        r.winner.value in r.state.pos && r.state.pos[r.winner.value] == winScore)
    decreases |rolls|
  {
    if rolls != [] {
      TurnKeepsPlayable(s, rolls[0], cells, winScore);
      var t := PlayTurn(s, rolls[0], cells, winScore);
      if !t.won {
        RunStopsAtWin(t.state, rolls[1..], cells, winScore);
      }
    }
  }

  /** Moving the front player to the back shifts every index one place. */
  lemma RotateIndex(q: seq<Player>, k: nat)
    requires |q| > 0
    ensures (q[1..] + [q[0]])[k % |q|] == q[(k + 1) % |q|]
  {
    var n := |q|;
    var d, m := k / n, k % n;
    assert k == d * n + m;
    if m == n - 1 {
      assert k + 1 == (d + 1) * n + 0;
      ModOfSum(d + 1, n, 0);
    } else {
      assert k + 1 == d * n + (m + 1);
      ModOfSum(d, n, m + 1);
    }
  }

  /** Division with remainder is unique: `d * n + m` with `0 <= m < n` leaves remainder `m`. */
  lemma ModOfSum(d: int, n: int, m: int)
    requires n > 0 && 0 <= m < n
    ensures (d * n + m) % n == m
  {
    var a := d * n + m;
    var d2, m2 := a / n, a % n;
    assert a == d2 * n + m2;
    if d2 > d {
      MultipleGap(d, d2, n);
      assert false;
    } else if d2 < d {
      MultipleGap(d2, d, n);
      assert false;
    }
  }

  /** Distinct multiples of `n` are at least `n` apart. */
  lemma MultipleGap(lo: int, hi: int, n: int)
    requires lo < hi && n > 0
    ensures hi * n >= lo * n + n
    decreases hi - lo
  {
    MulStep(hi - 1, n);
    if hi - 1 > lo {
      MultipleGap(lo, hi - 1, n);
    }
  }

  lemma MulStep(a: int, n: int)
    ensures (a + 1) * n == a * n + n
  {
  }

  /**
   * Round-robin order: turn `t` is taken by the player at position
   * `t mod N` of the starting queue of N entries.
   */
  lemma {:induction false} RunRoundRobin(s: State, rolls: seq<int>, cells: seq<Cell>, winScore: int)
    requires Playable(s, cells, winScore) && Nonnegative(rolls)
    ensures var r := Run(s, rolls, cells, winScore);
      forall t :: 0 <= t < |r.log| ==> r.log[t].player == s.queue[t % |s.queue|]
    decreases |rolls|
  {
    if rolls != [] {
      RunStep(s, rolls, cells, winScore);
      TurnRotates(s, rolls[0], cells, winScore);
      var tr := PlayTurn(s, rolls[0], cells, winScore);
      if !tr.won {
        RunRoundRobin(tr.state, rolls[1..], cells, winScore);
        RoundRobinShift(s.queue, tr.entry, Run(tr.state, rolls[1..], cells, winScore).log);
      }
    }
  }

  /** If the rotated queue takes the later turns in order, the original queue takes all of them. */
  lemma RoundRobinShift(q: seq<Player>, e: Entry, rest: seq<Entry>)
    requires |q| > 0 && e.player == q[0]
    requires forall t :: 0 <= t < |rest| ==> rest[t].player == (q[1..] + [q[0]])[t % |q|]
    ensures forall t :: 0 <= t < |[e] + rest| ==> ([e] + rest)[t].player == q[t % |q|]
  {
    forall t | 0 <= t < |[e] + rest|
      ensures ([e] + rest)[t].player == q[t % |q|]
    {
      if t > 0 {
        assert ([e] + rest)[t] == rest[t - 1];
        RotateIndex(q, t - 1);
      }
    }
  }

  /** With all jumps on the board and all players on it, every turn ends on the board. */
  lemma {:induction false} RunStaysOnBoard(s: State, rolls: seq<int>, cells: seq<Cell>, winScore: int)
    requires Playable(s, cells, winScore) && Nonnegative(rolls)
    requires |cells| == winScore + 1 && JumpsOnBoard(cells, winScore) && OnBoard(s, winScore)
    ensures var r := Run(s, rolls, cells, winScore);
      OnBoard(r.state, winScore) &&
      forall t :: 0 <= t < |r.log| ==> 0 <= r.log[t].pos <= winScore
    decreases |rolls|
  {
    if rolls != [] {
      TurnKeepsPlayable(s, rolls[0], cells, winScore);
      TurnStaysOnBoard(s, rolls[0], cells, winScore);
      var tr := PlayTurn(s, rolls[0], cells, winScore);
      if !tr.won {
        RunStaysOnBoard(tr.state, rolls[1..], cells, winScore);
      }
    }
  }

  /**
   * An overshoot never wins: if no queued player starts on the target,
   * the winning turn is a move or a jump.
   */
  lemma {:induction false} NoWinByOvershoot(s: State, rolls: seq<int>, cells: seq<Cell>, winScore: int)
    requires Playable(s, cells, winScore) && Nonnegative(rolls)
    requires OffTarget(s, winScore)
    ensures var r := Run(s, rolls, cells, winScore);
      r.winner.Some? ==> |r.log| > 0 && !r.log[|r.log| - 1].outcome.Overshot?
    decreases |rolls|
  {
    if rolls != [] {
      RunStep(s, rolls, cells, winScore);
      TurnStaysOffTarget(s, rolls[0], cells, winScore);
      var tr := PlayTurn(s, rolls[0], cells, winScore);
      if !tr.won {
        NoWinByOvershoot(tr.state, rolls[1..], cells, winScore);
      }
    }
  }

  /** No queued player stands on the target. */
  predicate OffTarget(s: State, winScore: int) {
    forall p :: p in s.queue ==> p in s.pos && s.pos[p] != winScore
  }

  /** A turn from off the target wins only by a move or a jump, and otherwise keeps everyone off it. */
  lemma TurnStaysOffTarget(s: State, roll: int, cells: seq<Cell>, winScore: int)
    requires |s.queue| > 0 && OffTarget(s, winScore)
    requires CanLand(s.pos[s.queue[0]], roll, cells, winScore)
    ensures var t := PlayTurn(s, roll, cells, winScore);
      (t.won ==> !t.entry.outcome.Overshot?) && (!t.won ==> OffTarget(t.state, winScore))
  {
    assert s.queue[0] in s.queue;
  }
}
