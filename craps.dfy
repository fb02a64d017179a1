/** The pass-line craps engine: two dice, the point, the win counters and the
    active / won flags of the current round. */
module Craps {
  import opened BankBet

  /** The property-change notifications the engine fires, in the order fired. */
  datatype GameEvent =
    | Active(value: bool)      // "active", fired only when the game turns inactive
    | DiceRoll                 // "diceRoll"
    | WinStatus                // "winStatus", always with value true
    | WinDisplay(won: bool)    // "winDisplay"
    | DisplayReset             // "displayReset"
    | GameOver(bankrupt: bool) // "gameOver"

  /** A snapshot of the engine's fields. */
  datatype Round = Round(
    dice1: int, dice2: int, total: int, point: int,
    playerWins: int, houseWins: int, active: bool, gameWon: bool)

  /** Two dice as rolled. */
  datatype Dice = Dice(d1: int, d2: int)

  predicate IsDie(d: int) {
    1 <= d <= 6
  }

  predicate IsRoll(x: Dice) {
    IsDie(x.d1) && IsDie(x.d2)
  }

  /** The totals that establish a point on the come-out roll. */
  predicate IsPointNumber(n: int) {
    n == 4 || n == 5 || n == 6 || n == 8 || n == 9 || n == 10
  }

  /** What every engine operation keeps: the point is 0 (come-out) or a point
      number, both counters are non-negative, the dice are either still at
      their initial 0 or both faces of a die, the total is 0 (cleared) or
      the sum of the dice, and a pending point always has its total. */
  predicate ValidRound(r: Round) {
    && (r.point == 0 || IsPointNumber(r.point))
    && r.playerWins >= 0 && r.houseWins >= 0
    && ((r.dice1 == 0 && r.dice2 == 0) || (IsDie(r.dice1) && IsDie(r.dice2)))
    && (r.total == 0 || (r.total == r.dice1 + r.dice2 && IsDie(r.dice1) && IsDie(r.dice2)))
    && (r.point != 0 ==> r.total != 0)
  }

  /** How a roll ends, given the point before it and the new total. */
  datatype Decision = PlayerWin | HouseWin | PointEstablished | NoDecision

  /** The pass-line decision table. */
  function Decide(point: int, total: int): (d: Decision)
    requires 2 <= total <= 12
    ensures d == PointEstablished <==> point == 0 && IsPointNumber(total)
    ensures point == 0 ==> d != NoDecision
    ensures point == 0 ==> (d == PlayerWin <==> total == 7 || total == 11)
    ensures point == 0 ==> (d == HouseWin <==> total == 2 || total == 3 || total == 12)
    ensures point != 0 ==> (d == PlayerWin <==> total == point)
    ensures point != 0 ==> (d == HouseWin <==> total == 7 && total != point)
  {
    if point == 0 then
      if total == 7 || total == 11 then PlayerWin
      else if total == 2 || total == 3 || total == 12 then HouseWin
      else PointEstablished
    else
      if total == point then PlayerWin
      else if total == 7 then HouseWin
      else NoDecision
  }

  /** roll() on a snapshot, with the dice given. */
  function RollStep(r: Round, x: Dice): (s: Round)
    requires IsRoll(x)
    // an inactive game is left exactly as it was
    ensures !r.active ==> s == r
    // an active game always takes the new dice and their total
    ensures r.active ==> s.dice1 == x.d1 && s.dice2 == x.d2 && s.total == x.d1 + x.d2
    // come-out roll
    ensures r.active && r.point == 0 && (s.total == 7 || s.total == 11) ==>
      s == r.(dice1 := x.d1, dice2 := x.d2, total := s.total,
              playerWins := r.playerWins + 1, gameWon := true, active := false)
    ensures r.active && r.point == 0 && (s.total == 2 || s.total == 3 || s.total == 12) ==>
      s == r.(dice1 := x.d1, dice2 := x.d2, total := s.total,
              houseWins := r.houseWins + 1, gameWon := false, active := false)
    ensures r.active && r.point == 0 && IsPointNumber(s.total) ==>
      s == r.(dice1 := x.d1, dice2 := x.d2, total := s.total, point := s.total)
    // point phase: the point itself never moves
    ensures r.active && r.point != 0 && s.total == r.point ==>
      s == r.(dice1 := x.d1, dice2 := x.d2, total := s.total,
              playerWins := r.playerWins + 1, gameWon := true, active := false)
    ensures r.active && r.point != 0 && s.total != r.point && s.total == 7 ==>
      s == r.(dice1 := x.d1, dice2 := x.d2, total := s.total,
              houseWins := r.houseWins + 1, gameWon := false, active := false)
    ensures r.active && r.point != 0 && s.total != r.point && s.total != 7 ==>
      s == r.(dice1 := x.d1, dice2 := x.d2, total := s.total)
    // the invariant is kept
    ensures ValidRound(r) ==> ValidRound(s)
  {
    if !r.active then r
    else
      var t := x.d1 + x.d2;
      var rolled := r.(dice1 := x.d1, dice2 := x.d2, total := t);
      match Decide(r.point, t)
      case PlayerWin => rolled.(playerWins := r.playerWins + 1, gameWon := true, active := false)
      case HouseWin => rolled.(houseWins := r.houseWins + 1, gameWon := false, active := false)
      case PointEstablished => rolled.(point := t)
      case NoDecision => rolled
  }

  /** softReset() on a snapshot. */
  function SoftResetOf(r: Round): (s: Round)
    ensures s.point == 0 && s.total == 0 && s.active
    ensures s.playerWins == r.playerWins && s.houseWins == r.houseWins
    ensures s.dice1 == r.dice1 && s.dice2 == r.dice2 && s.gameWon == r.gameWon
    ensures ValidRound(r) ==> ValidRound(s)
  {
    r.(point := 0, total := 0, active := true)
  }

  /** hardReset() on a snapshot: the active flag, the dice and the won flag
      are not touched. */
  function HardResetOf(r: Round): (s: Round)
    ensures s.point == 0 && s.total == 0 && s.playerWins == 0 && s.houseWins == 0
    ensures s.active == r.active && s.dice1 == r.dice1 && s.dice2 == r.dice2
    ensures s.gameWon == r.gameWon
    ensures ValidRound(r) ==> ValidRound(s)
  {
    r.(point := 0, total := 0, playerWins := 0, houseWins := 0)
  }

  /** A sequence of rolls with no reset in between. */
  function Play(r: Round, rolls: seq<Dice>): Round
    requires forall i :: 0 <= i < |rolls| ==> IsRoll(rolls[i])
    decreases |rolls|
  {
    if rolls == [] then r else Play(RollStep(r, rolls[0]), rolls[1..])
  }

  /** Once a round is over, no roll changes anything until a reset. */
  lemma {:induction false} PlayInactiveIsStuck(r: Round, rolls: seq<Dice>)
    requires forall i :: 0 <= i < |rolls| ==> IsRoll(rolls[i])
    requires !r.active
    ensures Play(r, rolls) == r
    decreases |rolls|
  {
    if rolls != [] {
      PlayInactiveIsStuck(RollStep(r, rolls[0]), rolls[1..]);
    }
  }

  /** Every reachable snapshot satisfies the invariant; in particular the
      point stays in {0, 4, 5, 6, 8, 9, 10}. */
  lemma {:induction false} PlayKeepsValid(r: Round, rolls: seq<Dice>)
    requires forall i :: 0 <= i < |rolls| ==> IsRoll(rolls[i])
    requires ValidRound(r)
    ensures ValidRound(Play(r, rolls))
    decreases |rolls|
  {
    if rolls != [] {
      PlayKeepsValid(RollStep(r, rolls[0]), rolls[1..]);
    }
  }

  /** Once established, the point stays fixed for the rest of the round. */
  lemma {:induction false} PlayKeepsPoint(r: Round, rolls: seq<Dice>)
    requires forall i :: 0 <= i < |rolls| ==> IsRoll(rolls[i])
    requires r.point != 0
    ensures Play(r, rolls).point == r.point
    decreases |rolls|
  {
    if rolls != [] {
      PlayKeepsPoint(RollStep(r, rolls[0]), rolls[1..]);
    }
  }

  /** A round is decided at most once: whatever the rolls, the two counters
      together rise by at most one, neither ever falls, and they rise exactly
      when an active round turns inactive; the won flag then tells which
      counter rose. */
  lemma {:induction false} PlayDecidesOnce(r: Round, rolls: seq<Dice>)
    requires forall i :: 0 <= i < |rolls| ==> IsRoll(rolls[i])
    ensures var s := Play(r, rolls);
      && s.playerWins >= r.playerWins && s.houseWins >= r.houseWins
      && s.playerWins + s.houseWins <= r.playerWins + r.houseWins + 1
      && ((r.active && !s.active) <==> s.playerWins + s.houseWins == r.playerWins + r.houseWins + 1)
      && (r.active && !s.active ==> (s.gameWon <==> s.playerWins == r.playerWins + 1))
    decreases |rolls|
  {
    if rolls != [] {
      var r1 := RollStep(r, rolls[0]);
      if r.active && !r1.active {
        PlayInactiveIsStuck(r1, rolls[1..]);
      } else {
        PlayDecidesOnce(r1, rolls[1..]);
      }
    }
  }

  class CrapsLogic {
    var dice1: int
    var dice2: int
    var total: int
    var point: int
    var playerWins: int
    var houseWins: int
    var active: bool
    var gameWon: bool
    /** every notification fired so far */
    var events: seq<GameEvent>

    function State(): Round
      reads this
    {
      Round(dice1, dice2, total, point, playerWins, houseWins, active, gameWon)
    }

    predicate Valid()
      reads this
    {
      ValidRound(State())
    }

    /** The constructor runs startGame; the dice keep Java's initial 0. */
    constructor ()
      ensures Valid()
      ensures State() == Round(0, 0, 0, 0, 0, 0, true, false)
      ensures events == [DiceRoll, WinStatus, WinDisplay(false)]
    {
      dice1, dice2 := 0, 0;
      total, point, playerWins, houseWins := 0, 0, 0, 0;
      active, gameWon := false, false;
      events := [];
      new;
      StartGame();
    }

    /** startGame: an active come-out round with both counters at zero. */
    method StartGame()
      modifies this
      ensures State() == old(State()).(active := true, gameWon := false, point := 0,
                                       total := 0, houseWins := 0, playerWins := 0)
      ensures events == old(events) + [DiceRoll, WinStatus, WinDisplay(false)]
    {
      SetGameActive(true);
      SetWins(false);
      point := 0;
      total := 0;
      houseWins := 0;
      playerWins := 0;
    }

    /** setGameActive: "active" is fired only when the game turns inactive. */
    method SetGameActive(flag: bool)
      modifies this
      ensures State() == old(State()).(active := flag)
      ensures events == old(events) + (if flag then [] else [Active(false)])
    {
      active := flag;
      if !active {
        events := events + [Active(false)];
      }
    }

    /** setWins: record the outcome and announce it. */
    method SetWins(won: bool)
      modifies this
      ensures State() == old(State()).(gameWon := won)
      ensures events == old(events) + [DiceRoll, WinStatus, WinDisplay(won)]
    {
      gameWon := won;
      events := events + [DiceRoll, WinStatus, WinDisplay(won)];
    }

    /** roll, with the two dice given.  A roll that decides the round fires
        the outcome notifications; "diceRoll" is fired last in every case,
        even when the game is inactive and nothing changed. */
    method Roll(x: Dice)
      requires IsRoll(x)
      modifies this
      ensures State() == RollStep(old(State()), x)
      ensures old(active) && !active ==>
        events == old(events) + [DiceRoll, WinStatus, WinDisplay(gameWon), Active(false), DiceRoll]
      ensures !(old(active) && !active) ==> events == old(events) + [DiceRoll]
    {
      if active {
        dice1 := x.d1;
        dice2 := x.d2;
        total := dice1 + dice2;
        if point == 0 {
          if total == 7 || total == 11 {
            playerWins := playerWins + 1;
            SetWins(true);
            SetGameActive(false);
          } else if total == 2 || total == 3 || total == 12 {
            houseWins := houseWins + 1;
            SetWins(false);
            SetGameActive(false);
          } else {
            point := total;
          }
        } else {
          if total == point {
            playerWins := playerWins + 1;
            SetWins(true);
            SetGameActive(false);
          } else if total == 7 {
            houseWins := houseWins + 1;
            SetWins(false);
            SetGameActive(false);
          }
        }
      }
      events := events + [DiceRoll];
    }

    /** softReset: a new come-out round; counters kept. */
    method SoftReset()
      modifies this
      ensures State() == SoftResetOf(old(State()))
      ensures events == old(events)
    {
      point := 0;
      total := 0;
      SetGameActive(true);
    }

    /** hardReset: clear point, total and both counters. */
    method HardReset()
      modifies this
      ensures State() == HardResetOf(old(State()))
      ensures events == old(events) + [DisplayReset]
    {
      point := 0;
      total := 0;
      playerWins := 0;
      houseWins := 0;
      events := events + [DisplayReset];
    }

    /** checkBankBalance, with the ledger passed in: an empty bank ends the
        session whatever the round's phase, zeroing bank and bet and
        hard-resetting the engine. */
    method CheckBankBalance(ledger: BankBetLogic) returns (bankrupt: bool)
      requires ledger.Valid()
      modifies this, ledger
      ensures ledger.Valid()
      ensures bankrupt == (old(ledger.bank) == 0)
      ensures bankrupt ==>
        && ledger.Holdings() == Funds(0, 0)
        && ledger.bankSet == old(ledger.bankSet) && ledger.betSet == old(ledger.betSet)
        && ledger.events == old(ledger.events) + [BankReset, LedgerEvent.GameOver]
        && State() == HardResetOf(old(State()))
        && events == old(events) + [GameEvent.GameOver(true), DisplayReset]
      ensures !bankrupt ==> unchanged(this) && unchanged(ledger)
    {
      if ledger.bank == 0 {
        ledger.ResetBankAndBet();
        ledger.GameEnd();
        events := events + [GameEvent.GameOver(ledger.bank == 0)];
        HardReset();
      }
      bankrupt := ledger.bank == 0;
    }
  }
}
