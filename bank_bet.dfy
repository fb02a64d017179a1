/** The bank/bet ledger of the craps table: the player's bank balance and the
    wager escrowed from it.  A wager is debited from the bank when it is placed,
    not when the round ends; a won round pays the wager back twice. */
module BankBet {

  /** The two ways the ledger refuses an amount (both are an
      IllegalArgumentException in the source). */
  datatype Error = InvalidAmount | InsufficientFunds

  /** The result of a pure ledger operation. */
  datatype Result<T> = Ok(value: T) | Err(error: Error)

  /** The result of a ledger method that changes the ledger in place. */
  datatype Outcome = Pass | Fail(error: Error)

  /** The two amounts the ledger holds. */
  datatype Funds = Funds(bank: int, bet: int)

  /** The property-change notifications the ledger fires, in the order fired. */
  datatype LedgerEvent =
    | BankSet(amount: int)   // "bankSet"
    | Bet(amount: int)       // "bet"
    | BankReset              // "bankReset"
    | GameOver               // "gameOver", always with value true

  /** Neither amount is negative: what every ledger operation keeps. */
  predicate Solvent(f: Funds) {
    f.bank >= 0 && f.bet >= 0
  }

  /** setBankAmount: the bank is set to the amount, not credited with it. */
  function FundBank(f: Funds, amount: int): (r: Result<Funds>)
    ensures r.Err? <==> amount <= 0
    ensures r.Err? ==> r.error == InvalidAmount
    ensures r.Ok? ==> r.value.bank == amount && r.value.bet == f.bet
    ensures r.Ok? && Solvent(f) ==> Solvent(r.value) && r.value.bank > 0
  {
    if amount <= 0 then Err(InvalidAmount) else Ok(f.(bank := amount))
  }

  /** checkBetReduce: moves money from the bank into the bet.  Raising the bet
      escrows only the difference; a new bet equal to or below the current one
      is debited in full (the ledger does not clamp it). */
  function Escrow(f: Funds, newBet: int): (g: Funds)
    ensures g.bet == newBet
    ensures newBet > f.bet ==> g.bank + g.bet == f.bank + f.bet
    ensures newBet <= f.bet ==> g.bank == f.bank - newBet
  {
    // the two guarded blocks of the source, in order
    var diff := if newBet >= f.bet then newBet - f.bet else 0;
    var raised := if newBet >= f.bet then Funds(f.bank - diff, newBet) else f;
    if diff == 0 then Funds(raised.bank - newBet, newBet) else raised
  }

  /** setBetAmount: an amount above the bank is refused first, then a
      non-positive one; otherwise the amount is escrowed. */
  function PlaceBet(f: Funds, amount: int): (r: Result<Funds>)
    ensures r.Err? <==> amount > f.bank || amount <= 0
    ensures amount > f.bank ==> r == Err(InsufficientFunds)
    ensures amount <= f.bank && amount <= 0 ==> r == Err(InvalidAmount)
    ensures r.Ok? ==> r.value == Escrow(f, amount)
    ensures r.Ok? && Solvent(f) ==> Solvent(r.value) && r.value.bet > 0
  {
    if amount > f.bank then Err(InsufficientFunds)
    else if amount <= 0 then Err(InvalidAmount)
    else Ok(Escrow(f, amount))
  }

  /** allIn: fund the bank with bank + bet, wager that whole bank, and leave
      nothing in the bank. */
  function GoAllIn(f: Funds): (r: Result<Funds>)
    ensures r.Err? <==> f.bank + f.bet <= 0
    ensures r.Err? ==> r.error == InvalidAmount
    ensures r.Ok? ==> r.value == Funds(0, f.bank + f.bet)
  {
    match FundBank(f, f.bet + f.bank)
    case Err(e) => Err(e)
    case Ok(g) =>
      match PlaceBet(g, g.bank)
      case Err(e) => Err(e)
      case Ok(h) => Ok(h.(bank := 0))
  }

  /** bettingWinLost: a won round credits twice the escrowed bet through
      setBankAmount; a lost round keeps everything (the bet was already
      debited). */
  function Settle(f: Funds, won: bool): (r: Result<Funds>)
    ensures !won ==> r == Ok(f)
    ensures won ==> (r.Err? <==> f.bank + 2 * f.bet <= 0)
    ensures won && r.Ok? ==> r.value == Funds(f.bank + 2 * f.bet, f.bet)
    ensures r.Ok? && Solvent(f) ==> Solvent(r.value)
  {
    if won then FundBank(f, f.bank + f.bet * 2) else Ok(f)
  }

  /** A whole round on a fresh bet: the bet is placed from an unwagered bank
      and settled; a win nets the bet, a loss costs it. */
  lemma RoundNet(f: Funds, amount: int, won: bool)
    requires Solvent(f) && f.bet == 0 && 0 < amount <= f.bank
    ensures PlaceBet(f, amount).Ok?
    ensures Settle(PlaceBet(f, amount).value, won)
         == Ok(Funds(if won then f.bank + amount else f.bank - amount, amount))
  {
  }

  class BankBetLogic {
    var bank: int
    var bet: int
    var bankSet: bool
    var betSet: bool
    /** every notification fired so far */
    var events: seq<LedgerEvent>

    function Holdings(): Funds
      reads this
    {
      Funds(bank, bet)
    }

    /** The ledger invariant: no amount is negative. */
    predicate Valid()
      reads this
    {
      Solvent(Holdings())
    }

    constructor ()
      ensures Valid()
      ensures Holdings() == Funds(0, 0) && !bankSet && !betSet && events == []
    {
      bank := 0;
      bet := 0;
      bankSet := false;
      betSet := false;
      events := [];
    }

    /** adjustBet: set the bet to the current bet plus the offset. */
    method AdjustBet(offset: int) returns (r: Outcome)
      requires Valid()
      modifies this
      ensures Valid()
      ensures r.Pass? <==> PlaceBet(old(Holdings()), old(bet) + offset).Ok?
      ensures r.Pass? ==> Holdings() == PlaceBet(old(Holdings()), old(bet) + offset).value
                          && betSet && bankSet == old(bankSet)
                          && events == old(events) + [Bet(old(bet) + offset)]
      ensures r.Fail? ==> r.error == PlaceBet(old(Holdings()), old(bet) + offset).error
                          && unchanged(this)
    {
      r := SetBetAmount(bet + offset);
    }

    /** adjustBank: set the bank to the current bank minus the offset. */
    method AdjustBank(offset: int) returns (r: Outcome)
      requires Valid()
      modifies this
      ensures Valid()
      ensures r.Pass? <==> FundBank(old(Holdings()), old(bank) - offset).Ok?
      ensures r.Pass? ==> Holdings() == FundBank(old(Holdings()), old(bank) - offset).value
                          && bankSet == old(bankSet) && betSet == old(betSet)
                          && events == old(events) + [BankSet(old(bank) - offset)]
      ensures r.Fail? ==> r.error == InvalidAmount && unchanged(this)
    {
      r := SetBankAmount(bank - offset);
    }

    /** checkBetReduce: escrow a new bet; fires nothing and sets no flag. */
    method CheckBetReduce(newBet: int)
      modifies this
      ensures Holdings() == Escrow(old(Holdings()), newBet)
      ensures bankSet == old(bankSet) && betSet == old(betSet) && events == old(events)
    {
      var previousBet := bet;
      var diff := 0;
      if newBet >= previousBet {
        diff := newBet - previousBet;
        bank := bank - diff;
        bet := newBet;
      }
      if diff == 0 {
        bank := bank - newBet;
        bet := newBet;
      }
    }

    /** resetBankAndBet: zero both amounts; the two flags are left as they are. */
    method ResetBankAndBet()
      modifies this
      ensures Valid()
      ensures Holdings() == Funds(0, 0)
      ensures bankSet == old(bankSet) && betSet == old(betSet)
      ensures events == old(events) + [BankReset]
    {
      events := events + [BankReset];
      bank := 0;
      bet := 0;
    }

    /** gameEnd: announce that the bank is exhausted. */
    method GameEnd()
      modifies this
      ensures Holdings() == old(Holdings())
      ensures bankSet == old(bankSet) && betSet == old(betSet)
      ensures events == old(events) + [GameOver]
    {
      events := events + [GameOver];
    }

    /** bettingWinLost, with the game's won flag passed in. */
    method BettingWinLost(won: bool) returns (r: Outcome)
      requires Valid()
      modifies this
      ensures Valid()
      ensures r.Pass? <==> Settle(old(Holdings()), won).Ok?
      ensures r.Pass? ==> Holdings() == Settle(old(Holdings()), won).value
                          && bankSet == old(bankSet) && betSet == old(betSet)
      ensures r.Pass? && won ==> events == old(events) + [BankSet(bank)]
      ensures r.Pass? && !won ==> events == old(events)
      ensures r.Fail? ==> r.error == InvalidAmount && unchanged(this)
    {
      r := Pass;
      if won {
        r := SetBankAmount(bank + bet * 2);
      }
    }

    /** allIn: wager bank + bet and leave the bank empty. */
    method AllIn() returns (r: Outcome)
      requires Valid()
      modifies this
      ensures Valid()
      ensures r.Pass? <==> GoAllIn(old(Holdings())).Ok?
      ensures r.Pass? ==> Holdings() == GoAllIn(old(Holdings())).value
                          && betSet && bankSet == old(bankSet)
                          && events == old(events) + [BankSet(bet), Bet(bet), BankSet(0)]
      ensures r.Fail? ==> r.error == InvalidAmount && unchanged(this)
    {
      r := SetBankAmount(bet + bank);
      if r.Pass? {
        var placed := SetBetAmount(bank);
        assert placed.Pass?;
        bank := 0;
        events := events + [BankSet(bank)];
      }
    }

    /** setBank: the "bank confirmed" flag. */
    method SetBank(flag: bool)
      modifies this
      ensures bankSet == flag
      ensures Holdings() == old(Holdings()) && betSet == old(betSet) && events == old(events)
    {
      bankSet := flag;
    }

    /** setBet: the "bet confirmed" flag. */
    method SetBet(flag: bool)
      modifies this
      ensures betSet == flag
      ensures Holdings() == old(Holdings()) && bankSet == old(bankSet) && events == old(events)
    {
      betSet := flag;
    }

    /** setBankAmount: refuse a non-positive amount, otherwise set the bank. */
    method SetBankAmount(amount: int) returns (r: Outcome)
      requires Valid()
      modifies this
      ensures Valid()
      ensures r.Pass? <==> amount > 0
      ensures r.Pass? ==> Holdings() == FundBank(old(Holdings()), amount).value
                          && bankSet == old(bankSet) && betSet == old(betSet)
                          && events == old(events) + [BankSet(amount)]
      ensures r.Fail? ==> r.error == InvalidAmount && unchanged(this)
    {
      if amount <= 0 {
        return Fail(InvalidAmount);
      }
      bank := amount;
      events := events + [BankSet(amount)];
      r := Pass;
    }

    /** setBetAmount: refuse an amount above the bank, then a non-positive
        one; otherwise escrow it, fire "bet" and mark the bet confirmed. */
    method SetBetAmount(amount: int) returns (r: Outcome)
      requires Valid()
      modifies this
      ensures Valid()
      ensures r.Pass? <==> PlaceBet(old(Holdings()), amount).Ok?
      ensures r.Pass? ==> Holdings() == PlaceBet(old(Holdings()), amount).value
                          && betSet && bankSet == old(bankSet)
                          && events == old(events) + [Bet(amount)]
      ensures r.Fail? ==> r.error == PlaceBet(old(Holdings()), amount).error
                          && unchanged(this)
    {
      if amount > bank {
        return Fail(InsufficientFunds);
      }
      if amount <= 0 {
        return Fail(InvalidAmount);
      }
      CheckBetReduce(amount);
      events := events + [Bet(amount)];
      SetBet(true);
      r := Pass;
    }
  }
}
