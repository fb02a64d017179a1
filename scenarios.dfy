/** Sessions driven through the table's handlers, with the state each step
    leaves, as a caller can prove it from the contracts alone. */
module Scenarios {
  import opened BankBet
  import opened Craps
  import opened Controller

  /** Bank 1000, bet 200, a natural 7 on the come-out roll: bank 1200. */
  method WinOnComeOut() {
    var game := new CrapsLogic();
    var ledger := new BankBetLogic();
    var table := new Table(game, ledger);
    var funded := ledger.SetBankAmount(1000);
    table.ConfirmBank();
    var placed := ledger.SetBetAmount(200);
    assert placed.Pass? && ledger.Holdings() == Funds(800, 200);
    var started := table.Start();
    assert started;
    var rolled := table.RollDice(Dice(3, 4));
    assert rolled && !game.active && game.gameWon && game.playerWins == 1;
    assert ledger.Holdings() == Funds(1200, 200);
  }

  /** Bank 500, bet 500, craps on the come-out roll: the empty bank ends the
      session and everything is back at zero. */
  method AllInCrapsOut() {
    var game := new CrapsLogic();
    var ledger := new BankBetLogic();
    var table := new Table(game, ledger);
    var funded := ledger.SetBankAmount(500);
    table.ConfirmBank();
    var placed := ledger.SetBetAmount(500);
    assert ledger.Holdings() == Funds(0, 500);
    var started := table.Start();
    var rolled := table.RollDice(Dice(1, 1));
    assert ledger.Holdings() == Funds(0, 0);
    assert game.houseWins == 0 && game.playerWins == 0 && game.point == 0 && !game.active;
    var again := table.PlayAgain();
    assert again == SessionOver;
  }

  /** Bank 500, bet 500, craps on the come-out roll, then Start: the
      bankruptcy kept both confirmations, so the game starts again with
      nothing in the bank or on the table, and a winning roll is refused its
      payout and ends the session once more. */
  method StartAfterBankruptcy() {
    var game := new CrapsLogic();
    var ledger := new BankBetLogic();
    var table := new Table(game, ledger);
    var funded := ledger.SetBankAmount(500);
    table.ConfirmBank();
    var placed := ledger.SetBetAmount(500);
    var started := table.Start();
    var rolled := table.RollDice(Dice(1, 1));
    assert ledger.Holdings() == Funds(0, 0) && !game.active;
    started := table.Start();
    assert started && game.active;
    rolled := table.RollDice(Dice(3, 4));
    assert rolled && ledger.Holdings() == Funds(0, 0);
    assert !game.active && game.playerWins == 0;
  }

  /** Bank 1000, bet 600, a lost round, then Play Again: the previous bet no
      longer fits in the bank, so it is not placed again, but the new round
      starts anyway and still carries the old bet, which a win then pays. */
  method PlayAgainAfterLossKeepsOldBet() {
    var game := new CrapsLogic();
    var ledger := new BankBetLogic();
    var table := new Table(game, ledger);
    var funded := ledger.SetBankAmount(1000);
    table.ConfirmBank();
    var placed := ledger.SetBetAmount(600);
    var started := table.Start();
    var rolled := table.RollDice(Dice(6, 6));
    assert !game.active && game.houseWins == 1;
    assert ledger.Holdings() == Funds(400, 600);
    var again := table.PlayAgain();
    assert again == NewRound(Fail(InsufficientFunds));
    assert game.active && ledger.Holdings() == Funds(400, 600);
    rolled := table.RollDice(Dice(5, 6));
    assert rolled && game.playerWins == 1;
    assert ledger.Holdings() == Funds(1600, 600);
  }

  /** Raising the bet with chips, then going all in. */
  method ChipsThenAllIn() {
    var ledger := new BankBetLogic();
    var game := new CrapsLogic();
    var table := new Table(game, ledger);
    var funded := ledger.SetBankAmount(300);
    var added := table.AddChip(100);
    assert added && ledger.Holdings() == Funds(200, 100);
    added := table.AddChip(500);
    assert !added && ledger.Holdings() == Funds(200, 100);
    var went := table.AllInButton();
    assert went && ledger.Holdings() == Funds(0, 300);
    went := table.AllInButton();
    assert !went;
  }
}
