/** The round flow that the window's handlers drive: start, roll (with
    settlement and the bankruptcy check), play again, reset, and the chip and
    all-in buttons, each with the guard its handler applies. */
module Controller {
  import opened BankBet
  import opened Craps

  /** The bet increments offered as buttons. */
  predicate IsChip(c: int) {
    c == 1 || c == 5 || c == 10 || c == 50 || c == 100 || c == 500
  }

  /** A chip button: the bet is raised only when the raised bet still fits in
      the bank, so money only moves from the bank into the bet. */
  function ChipClick(f: Funds, chip: int): (g: Funds)
    requires IsChip(chip)
    ensures Solvent(f) && f.bet + chip <= f.bank ==> g == Funds(f.bank - chip, f.bet + chip)
    ensures f.bet + chip > f.bank ==> g == f
    ensures Solvent(f) ==> Solvent(g) && g.bank + g.bet == f.bank + f.bet && g.bet >= f.bet
  {
    if f.bet + chip <= f.bank then
      match PlaceBet(f, f.bet + chip)
      case Ok(h) => h
      case Err(_) => f
    else f
  }

  /** Several chip buttons pressed in turn. */
  function ChipClicks(f: Funds, chips: seq<int>): Funds
    requires forall i :: 0 <= i < |chips| ==> IsChip(chips[i])
    decreases |chips|
  {
    if chips == [] then f else ChipClicks(ChipClick(f, chips[0]), chips[1..])
  }

  /** However the chip buttons are pressed, the ledger stays solvent, the bet
      never falls, and bank + bet is what it was. */
  lemma {:induction false} ChipClicksConserve(f: Funds, chips: seq<int>)
    requires forall i :: 0 <= i < |chips| ==> IsChip(chips[i])
    requires Solvent(f)
    ensures var g := ChipClicks(f, chips);
      Solvent(g) && g.bank + g.bet == f.bank + f.bet && g.bet >= f.bet
    decreases |chips|
  {
    if chips != [] {
      ChipClicksConserve(ChipClick(f, chips[0]), chips[1..]);
    }
  }

  /** The engine and the ledger together. */
  datatype Session = Session(round: Round, funds: Funds)

  /** The roll button once its guard has passed: roll, settle a decided
      round, then end the session if the bank is empty. */
  function TableRoll(s: Session, x: Dice): (t: Session)
    requires IsRoll(x)
    ensures Solvent(s.funds) ==> Solvent(t.funds)
    ensures ValidRound(s.round) ==> ValidRound(t.round)
    // an empty bank after settlement ends the session
    ensures t.funds.bank == 0 ==> t.funds == Funds(0, 0)
                                  && t.round == HardResetOf(RollStep(s.round, x))
    ensures t.funds.bank != 0 ==> t.round == RollStep(s.round, x)
    // unless the roll wins the round, the funds are kept, and the session ends
    // exactly when the bank was already empty
    ensures var r := RollStep(s.round, x);
      !(s.round.active && !r.active && r.gameWon) ==>
        (t.funds.bank == 0 <==> s.funds.bank == 0) && (s.funds.bank != 0 ==> t.funds == s.funds)
    // a won round whose payout the bank accepts is paid and the session goes on
    ensures var r := RollStep(s.round, x);
      s.round.active && !r.active && r.gameWon && s.funds.bank + 2 * s.funds.bet > 0 ==>
        t == Session(r, Funds(s.funds.bank + 2 * s.funds.bet, s.funds.bet))
    // a won round whose payout the bank refuses ends the session
    ensures var r := RollStep(s.round, x);
      s.round.active && !r.active && r.gameWon && s.funds.bank + 2 * s.funds.bet <= 0 && Solvent(s.funds) ==>
        t == Session(HardResetOf(r), Funds(0, 0))
    // the bet stays escrowed until the session ends
    ensures t.funds.bank != 0 ==> t.funds.bet == s.funds.bet
  {
    var r := RollStep(s.round, x);
    var decided := s.round.active && !r.active;
    var f := if decided then (match Settle(s.funds, r.gameWon) case Ok(g) => g case Err(_) => s.funds)
             else s.funds;
    if f.bank == 0 then Session(HardResetOf(r), Funds(0, 0)) else Session(r, f)
  }

  /** A won round pays twice the bet and, with a bet on the table, never
      ends the session. */
  lemma WinPaysAndContinues(s: Session, x: Dice)
    requires IsRoll(x) && Solvent(s.funds) && s.funds.bet > 0
    requires s.round.active && !RollStep(s.round, x).active && RollStep(s.round, x).gameWon
    ensures TableRoll(s, x)
         == Session(RollStep(s.round, x), Funds(s.funds.bank + 2 * s.funds.bet, s.funds.bet))
  {
  }

  /** A lost round with the whole bank wagered ends the session. */
  lemma AllInLossEndsSession(s: Session, x: Dice)
    requires IsRoll(x) && s.funds.bank == 0
    requires s.round.active && !RollStep(s.round, x).active && !RollStep(s.round, x).gameWon
    ensures TableRoll(s, x) == Session(HardResetOf(RollStep(s.round, x)), Funds(0, 0))
  {
  }

  /** With the whole bank wagered, a come-out roll that only establishes a
      point already ends the session: the escrowed bet is wiped while the
      round is still undecided, and the engine is back at come-out and
      still active. */
  lemma AllInPointEndsSession(s: Session, x: Dice)
    requires IsRoll(x) && s.funds.bank == 0 && s.funds.bet > 0
    requires s.round.active && s.round.point == 0 && IsPointNumber(x.d1 + x.d2)
    ensures var t := TableRoll(s, x);
      && t.funds == Funds(0, 0)
      && t.round.active && t.round.point == 0 && t.round.total == 0
      && t.round.playerWins == 0 && t.round.houseWins == 0
  {
  }

  /** What Play Again did. */
  datatype PlayAgainResult =
    | StillActive               // the round is not over: nothing happens
    | SessionOver               // the bank was empty: the session was reset
    | NewRound(rewager: Outcome) // soft reset, then the previous bet is placed again

  class Table {
    const game: CrapsLogic
    const ledger: BankBetLogic

    constructor (game: CrapsLogic, ledger: BankBetLogic)
      ensures this.game == game && this.ledger == ledger
    {
      this.game := game;
      this.ledger := ledger;
    }

    predicate Valid()
      reads this, game, ledger
    {
      game.Valid() && ledger.Valid()
    }

    function Snapshot(): Session
      reads this, game, ledger
    {
      Session(game.State(), ledger.Holdings())
    }

    /** The set-bank button: the bank amount is confirmed. */
    method ConfirmBank()
      requires Valid()
      modifies ledger
      ensures Valid()
      ensures ledger.bankSet
      ensures ledger.Holdings() == old(ledger.Holdings()) && ledger.betSet == old(ledger.betSet)
      ensures ledger.events == old(ledger.events)
    {
      ledger.SetBank(true);
    }

    /** Start: allowed only once both bank and bet are confirmed. */
    method Start() returns (started: bool)
      requires Valid()
      modifies game
      ensures Valid()
      ensures started == (ledger.bankSet && ledger.betSet)
      ensures started ==> game.State() == old(game.State()).(active := true)
                          && game.events == old(game.events)
      ensures !started ==> unchanged(game)
    {
      started := ledger.bankSet && ledger.betSet;
      if started {
        game.SetGameActive(true);
      }
    }

    /** Roll: only while the game is active and a bet is confirmed; a decided
        round is settled before the bank is checked. */
    method RollDice(x: Dice) returns (rolled: bool)
      requires Valid() && IsRoll(x)
      modifies game, ledger
      ensures Valid()
      ensures rolled == (old(game.active) && old(ledger.betSet))
      ensures rolled ==> Snapshot() == TableRoll(old(Snapshot()), x)
                         && ledger.bankSet == old(ledger.bankSet)
                         && ledger.betSet == old(ledger.betSet)
      ensures !rolled ==> unchanged(game) && unchanged(ledger)
    {
      rolled := game.active && ledger.betSet;
      if rolled {
        game.Roll(x);
        if !game.active {
          var settled := ledger.BettingWinLost(game.gameWon);
        }
        var bankrupt := game.CheckBankBalance(ledger);
      }
    }

    /** Play Again: only once the round is over; an empty bank ends the
        session, otherwise a new come-out round starts and the previous bet
        is placed again. */
    method PlayAgain() returns (r: PlayAgainResult)
      requires Valid()
      modifies game, ledger
      ensures Valid()
      ensures old(game.active) ==> r == StillActive && unchanged(game) && unchanged(ledger)
      ensures !old(game.active) && old(ledger.bank) == 0 ==>
        && r == SessionOver
        && game.State() == HardResetOf(old(game.State()))
        && ledger.Holdings() == Funds(0, 0)
        && ledger.betSet == old(ledger.betSet)
      ensures !old(game.active) && old(ledger.bank) != 0 ==>
        && r.NewRound?
        && game.State() == SoftResetOf(old(game.State()))
        && (r.rewager.Pass? <==> PlaceBet(old(ledger.Holdings()), old(ledger.bet)).Ok?)
        && (r.rewager.Pass? ==>
              ledger.Holdings() == PlaceBet(old(ledger.Holdings()), old(ledger.bet)).value
              && ledger.betSet)
        && (r.rewager.Fail? ==> r.rewager.error == PlaceBet(old(ledger.Holdings()), old(ledger.bet)).error
                                && ledger.Holdings() == old(ledger.Holdings())
                                && ledger.betSet == old(ledger.betSet))
      ensures ledger.bankSet == old(ledger.bankSet)
    {
      r := StillActive;
      if !game.active {
        var bankrupt := game.CheckBankBalance(ledger);
        if bankrupt {
          r := SessionOver;
        } else {
          game.SoftReset();
          var rewager := ledger.SetBetAmount(ledger.bet);
          r := NewRound(rewager);
        }
      }
    }

    /** Reset: a hard reset of the engine, both confirmations withdrawn, bank
        and bet zeroed. */
    method Reset()
      requires Valid()
      modifies game, ledger
      ensures Valid()
      ensures game.State() == HardResetOf(old(game.State()))
      ensures ledger.Holdings() == Funds(0, 0) && !ledger.bankSet && !ledger.betSet
    {
      game.HardReset();
      ledger.SetBank(false);
      ledger.SetBet(false);
      ledger.ResetBankAndBet();
    }

    /** A chip button. */
    method AddChip(chip: int) returns (added: bool)
      requires Valid() && IsChip(chip)
      modifies ledger
      ensures Valid()
      ensures added == (old(ledger.bet) + chip <= old(ledger.bank))
      ensures ledger.Holdings() == ChipClick(old(ledger.Holdings()), chip)
      ensures added ==> ledger.betSet && ledger.events == old(ledger.events) + [Bet(ledger.bet)]
      ensures !added ==> unchanged(ledger)
      ensures ledger.bankSet == old(ledger.bankSet)
    {
      added := ledger.bet + chip <= ledger.bank;
      if added {
        var r := ledger.AdjustBet(chip);
        assert r.Pass?;
      }
    }

    /** The all-in button: only while the bet is below the bank. */
    method AllInButton() returns (went: bool)
      requires Valid()
      modifies ledger
      ensures Valid()
      ensures went == (old(ledger.bet) < old(ledger.bank))
      ensures went ==> ledger.Holdings() == Funds(0, old(ledger.bank) + old(ledger.bet))
                       && ledger.betSet
                       && ledger.events == old(ledger.events)
                            + [BankSet(ledger.bet), Bet(ledger.bet), BankSet(0)]
      ensures !went ==> unchanged(ledger)
      ensures ledger.bankSet == old(ledger.bankSet)
    {
      went := ledger.bet < ledger.bank;
      if went {
        var r := ledger.AllIn();
        assert r.Pass?;
      }
    }
  }
}
