# Craps table: game engine and bank/bet ledger

This project models the two classes that hold the game logic of a single-player
pass-line craps table, and proves properties of that model in Dafny.

- **`CrapsLogic`** (module `Craps`) is the game engine. It holds two dice, their total, the point (0 during the
  come-out roll), the player and house win counters, and the `active` and `gameWon` flags.
  `Roll` applies the come-out and point rules. `SoftReset` starts a new round and `HardReset` clears the session.
  `CheckBankBalance` ends the session when the ledger's bank is empty.
- **`BankBetLogic`** (module `BankBet`) is the ledger. It holds the bank, the bet, the two "confirmed" flags and
  the log of notifications fired. The bet is escrowed when it is placed: raising the bet debits the bank at once,
  and a won round pays back twice the bet.
- **`Table`** (module `Controller`) composes the flow that the window's handlers drive. Each handler carries the
  guard its button applies: Start, Roll (with settlement and the bankruptcy check), Play Again, Reset, the chip
  buttons and the all-in button.

Both classes are Dafny classes whose methods update their fields in place. Each mutating method is proved against a
pure function of the old state: `RollStep`, `SoftResetOf` and `HardResetOf` for a `Round` snapshot, and `FundBank`,
`PlaceBet`, `Escrow`, `GoAllIn` and `Settle` for a `Funds` value. The game-level properties are proved about those
functions:

- the invariant `ValidRound` is kept, so the point is always 0, 4, 5, 6, 8, 9 or 10;
- a decided round stays decided until a reset;
- the point never moves once established;
- a round is decided at most once, and the won flag says which counter rose;
- the chip buttons conserve bank + bet.

Every notification the source fires (`diceRoll`, `winStatus`, `winDisplay`, `active`, `displayReset`, `gameOver`,
`bankSet`, `bet`, `bankReset`) is appended to an `events` log on the object that fires it. The methods' contracts
state that log.

Java exceptions (`IllegalArgumentException` from `setBankAmount` and `setBetAmount`) become a `Fail(error)` result.
On a failure, the contract states that the object is unchanged. The dice are parameters. The two singletons become
objects that are passed explicitly.

`scenarios.dfy` drives whole sessions through the `Table` and checks, from the contracts alone, the state each step
leaves:

- bank 1000 and bet 200, then a come-out 7, give a bank of 1200;
- bank 500 with all 500 wagered, then a come-out 2, ends the session;
- the same bankruptcy followed by Start, which starts a game with funds (0, 0);
- a lost round followed by Play Again with too little left in the bank;
- chip buttons, then all in.

### Quirks of the code that the model keeps

Each of these is modelled as the code behaves:

- **Lower bets are not clamped.** A bet at or below the current bet is not clamped upward by the ledger. The full
  amount is debited from the bank (`Escrow`, `CheckBetReduce`). The upward clamp exists only in the bet text field's
  focus listener (`Craps/src/controller/BankPanel.java:329-331`), which is not modelled.
- **The bet can exceed the bank.** Because the bet is escrowed, the bet is routinely larger than the remaining bank.
  The ledger invariant is only that neither amount is negative (`Solvent`).
- **`resetBankAndBet` keeps the flags.** It zeroes bank and bet but leaves `bankSet` and `betSet` as they were. Only the
  Reset menu action clears them, and it does so before calling it.
- **An inactive `roll()` still notifies.** It changes nothing but still fires `diceRoll`.
- **`hardReset` keeps `active`.** It does not touch the `active` flag, the dice or `gameWon`.
- **`allIn` fires three notifications and confirms the bet.** It fires `bankSet(bank + bet)`, `bet(bank + bet)` and
  `bankSet(0)`, and it marks the bet confirmed.
- **Settling a win can fail.** Settlement of a won round goes through `setBankAmount`, so it is refused when
  `bank + 2*bet <= 0`.
- **`checkBankBalance` fires whenever the bank is 0**, even while a point is pending. With the whole bank wagered,
  establishing a point therefore ends the session and wipes the escrowed bet (`AllInPointEndsSession`).
- **Play Again can leave the old bet on the table.** When the previous bet no longer fits in the bank after a loss,
  the re-wager is refused. The new round has already been started by then, and it carries the old bet, which a win
  then pays (`PlayAgainAfterLossKeepsOldBet`).

## Model

| member | source | states |
|---|---|---|
| `BankBet.FundBank` | Craps/src/model/BankBetLogic.java:210-217 | Refuses an amount <= 0 with InvalidAmount. Otherwise the bank becomes exactly the amount (set, not added) and the bet is kept. A solvent ledger stays solvent. |
| `BankBet.Escrow` | Craps/src/model/BankBetLogic.java:87-99 | The bet becomes the new bet. Raising the bet keeps bank + bet unchanged, so only the difference is debited. A new bet at or below the current one is debited in full. |
| `BankBet.PlaceBet` | Craps/src/model/BankBetLogic.java:227-240 | Fails exactly when the amount exceeds the bank (InsufficientFunds, checked first) or is <= 0 (InvalidAmount). Otherwise the result is `Escrow` of the amount, which leaves a solvent ledger solvent with a positive bet. |
| `BankBet.GoAllIn` | Craps/src/model/BankBetLogic.java:132-137 | Fails (InvalidAmount) exactly when bank + bet <= 0. Otherwise the result is bank 0 with bet = old bank + old bet, so the total is conserved. |
| `BankBet.Settle` | Craps/src/model/BankBetLogic.java:120-125 | A loss changes nothing. A win credits twice the bet and keeps the bet, and fails exactly when bank + 2*bet <= 0. Solvency is kept. |
| `BankBet.RoundNet` | Craps/src/model/BankBetLogic.java:120-125 | A fresh bet placed from an unwagered bank and then settled nets +bet on a win and -bet on a loss. |
| `BankBet.BankBetLogic.constructor` | Craps/src/model/BankBetLogic.java:55-61 | Bank and bet are 0, both flags are false, and nothing has been fired. |
| `BankBet.BankBetLogic.AdjustBet` | Craps/src/model/BankBetLogic.java:69-71 | Exactly `SetBetAmount(bet + offset)`: the same outcome, funds, flag and notification. |
| `BankBet.BankBetLogic.AdjustBank` | Craps/src/model/BankBetLogic.java:78-80 | Exactly `SetBankAmount(bank - offset)`. |
| `BankBet.BankBetLogic.CheckBetReduce` | Craps/src/model/BankBetLogic.java:87-99 | The new funds are `Escrow` of the old ones. The flags and the log are untouched. |
| `BankBet.BankBetLogic.ResetBankAndBet` | Craps/src/model/BankBetLogic.java:104-108 | Bank and bet become 0, both flags keep their values, and `bankReset` is fired. |
| `BankBet.BankBetLogic.GameEnd` | Craps/src/model/BankBetLogic.java:113-115 | Fires `gameOver` and changes nothing else. |
| `BankBet.BankBetLogic.BettingWinLost` | Craps/src/model/BankBetLogic.java:120-125 | The new funds are `Settle(old, won)`. A win fires `bankSet` with the new bank. A refused win leaves the object unchanged. |
| `BankBet.BankBetLogic.AllIn` | Craps/src/model/BankBetLogic.java:132-137 | The new funds are `GoAllIn(old)`, that is bank 0 and bet = old bank + old bet. The bet becomes confirmed, and `bankSet`, `bet`, `bankSet(0)` are fired. A refusal leaves the object unchanged. |
| `BankBet.BankBetLogic.SetBank` | Craps/src/model/BankBetLogic.java:189-191 | Sets only the bank-confirmed flag. |
| `BankBet.BankBetLogic.SetBet` | Craps/src/model/BankBetLogic.java:198-200 | Sets only the bet-confirmed flag. |
| `BankBet.BankBetLogic.SetBankAmount` | Craps/src/model/BankBetLogic.java:210-217 | Succeeds exactly when the amount is > 0. It then sets the bank to the amount, keeps the bet and fires `bankSet`. Otherwise it fails with InvalidAmount and the object is unchanged. |
| `BankBet.BankBetLogic.SetBetAmount` | Craps/src/model/BankBetLogic.java:227-240 | Succeeds exactly when `PlaceBet` does. It then sets the funds to its value, fires `bet` and confirms the bet. Otherwise it fails with PlaceBet's error and the object is unchanged. The ledger stays solvent. |
| `Craps.Decide` | Craps/src/model/CrapsLogic.java:261-283 | A point is established exactly on a come-out point number. A come-out roll always decides something. On the come-out roll, the player wins exactly on 7 or 11 and the house wins exactly on 2, 3 or 12. In the point phase, the player wins exactly on the point and the house wins exactly on a 7 that is not the point. |
| `Craps.RollStep` | Craps/src/model/CrapsLogic.java:255-286 | An inactive game is unchanged. An active game takes the dice and their sum. Come-out 7/11: player win, inactive. Come-out 2/3/12: house win, inactive. Come-out point number: the point is set, and the counters and flags are kept. In the point phase, the point wins for the player, a 7 wins for the house, anything else changes only the dice and total, and the point is never modified. `ValidRound` is kept. |
| `Craps.SoftResetOf` | Craps/src/model/CrapsLogic.java:293-297 | Point and total become 0 and the game becomes active. The counters, dice and won flag are kept, and the invariant holds. |
| `Craps.HardResetOf` | Craps/src/model/CrapsLogic.java:304-310 | Point, total and both counters become 0. The active flag, dice and won flag are kept, and the invariant holds. |
| `Craps.PlayInactiveIsStuck` | Craps/src/model/CrapsLogic.java:255-286 | From an inactive game, any sequence of rolls leaves every field unchanged. |
| `Craps.PlayKeepsValid` | Craps/src/model/CrapsLogic.java:255-286 | After any sequence of rolls, the invariant still holds: the point is in {0,4,5,6,8,9,10}, the counters are non-negative, and the dice and total are consistent. |
| `Craps.PlayKeepsPoint` | Craps/src/model/CrapsLogic.java:273-283 | Once a point is set, no sequence of rolls changes it. |
| `Craps.PlayDecidesOnce` | Craps/src/model/CrapsLogic.java:255-286 | Over any sequence of rolls, neither counter falls and their sum rises by at most 1. It rises exactly when an active game turns inactive, and `gameWon` then holds exactly when the player's counter rose. |
| `Craps.CrapsLogic.constructor` | Craps/src/model/CrapsLogic.java:75-77 | Runs startGame: an active come-out game with dice, total, point and counters 0 and won false. `diceRoll`, `winStatus`, `winDisplay(false)` are fired. |
| `Craps.CrapsLogic.StartGame` | Craps/src/model/CrapsLogic.java:242-249 | Active, not won, with point, total and both counters 0 and the dice kept. Fires `diceRoll`, `winStatus`, `winDisplay(false)`. |
| `Craps.CrapsLogic.SetGameActive` | Craps/src/model/CrapsLogic.java:84-89 | Sets only the active flag, and fires `active(false)` only when the flag becomes false. |
| `Craps.CrapsLogic.SetWins` | Craps/src/model/CrapsLogic.java:97-102 | Sets only the won flag, and fires `diceRoll`, `winStatus`, `winDisplay(won)`. |
| `Craps.CrapsLogic.Roll` | Craps/src/model/CrapsLogic.java:255-286 | The new state is `RollStep` of the old one. A deciding roll fires the outcome notifications and `active(false)`. `diceRoll` is fired last on every call, including on an inactive game. |
| `Craps.CrapsLogic.SoftReset` | Craps/src/model/CrapsLogic.java:293-297 | The new state is `SoftResetOf` of the old one, and nothing is fired. |
| `Craps.CrapsLogic.HardReset` | Craps/src/model/CrapsLogic.java:304-310 | The new state is `HardResetOf` of the old one, and `displayReset` is fired. |
| `Craps.CrapsLogic.CheckBankBalance` | Craps/src/model/CrapsLogic.java:318-327 | Returns true exactly when the ledger's bank was 0, whatever the round's phase. It then zeroes bank and bet, keeps the flags, fires `bankReset` and `gameOver` on the ledger and `gameOver(true)` and `displayReset` on the engine, and hard-resets the engine. Otherwise neither object changes. |
| `Controller.ChipClick` | Craps/src/controller/BankPanel.java:340-374 | A chip raises the bet by its amount and lowers the bank by the same amount when the raised bet fits in the bank. Otherwise nothing changes. Solvency and bank + bet are kept, and the bet never falls. |
| `Controller.ChipClicksConserve` | Craps/src/controller/BankPanel.java:340-374 | Any sequence of chip presses keeps the ledger solvent, keeps bank + bet and never lowers the bet. |
| `Controller.TableRoll` | Craps/src/controller/RollPlayPanel.java:105-108 | After a guarded roll, settlement and the bank check, the funds stay solvent and the round invariant holds. A roll that does not win the round keeps the funds and ends the session exactly when the bank was already 0; the session then becomes bank 0, bet 0 and a hard-reset round. A won round whose payout the bank accepts (bank + 2*bet > 0) is paid twice the bet, keeps the bet, and continues with the round `RollStep` gives. A won round whose payout the bank refuses (possible only with funds (0, 0)) ends the session the same way. |
| `Controller.WinPaysAndContinues` | Craps/src/controller/WinPanel.java:157-163 | A won round with a positive bet credits twice the bet and does not end the session. |
| `Controller.AllInLossEndsSession` | Craps/src/controller/RollPlayPanel.java:105-108 | A lost round with an empty bank ends the session: funds (0, 0) and a hard-reset round. |
| `Controller.AllInPointEndsSession` | Craps/src/model/CrapsLogic.java:318-327 | With the whole bank wagered, a come-out roll that only sets a point already ends the session. The bet is wiped, and the game is active again at come-out with zeroed counters. |
| `Controller.Table.ConfirmBank` | Craps/src/controller/BankPanel.java:271-280 | Confirms the bank and changes nothing else in the ledger. |
| `Controller.Table.Start` | Craps/src/controller/MenuBar.java:113-117 | Starts exactly when both bank and bet are confirmed. Starting only makes the game active. Otherwise the game is unchanged. |
| `Controller.Table.RollDice` | Craps/src/controller/RollPlayPanel.java:105-108 | Rolls exactly when the game is active and the bet is confirmed. The new engine and ledger state is `TableRoll` of the old state, and the flags are kept. Otherwise nothing changes. |
| `Controller.Table.PlayAgain` | Craps/src/controller/RollPlayPanel.java:120-127 | Does nothing while the game is active. An empty bank resets the session and keeps both confirmation flags. Otherwise the game is soft-reset and the previous bet is placed again through `PlaceBet`. If that re-wager is refused, the funds are kept and the new round still runs. |
| `Controller.Table.Reset` | Craps/src/controller/MenuBar.java:143-146 | Hard-resets the game, clears both confirmations, and zeroes bank and bet. |
| `Controller.Table.AddChip` | Craps/src/controller/BankPanel.java:340-374 | Adds the chip exactly when bet + chip fits in the bank. The new funds are `ChipClick` of the old ones, the bet is confirmed and `bet` is fired. Otherwise the ledger is unchanged. |
| `Controller.Table.AllInButton` | Craps/src/controller/BankPanel.java:376-380 | Goes all in exactly when the bet is below the bank. The result is bank 0 and bet = old bank + old bet, the bet is confirmed, and `bankSet`, `bet`, `bankSet(0)` are fired. Otherwise the ledger is unchanged. |

## Left out

- The random dice (`java.util.Random` in `roll`) are not modelled. Each roll's two dice are a parameter, with each die in 1..6.
- Listener registration and delivery (`addPropertyChangeListener`, `PropertyChangeSupport`) are not modelled. Fired notifications are recorded in an `events` log whether or not anyone listens, including the three fired by `startGame` from the constructor.
- Settlement is called explicitly after a deciding roll instead of from the `winStatus` listener. In the source it runs inside `roll` (from `setWins`), before `active` turns false. The funds come out the same.
- Controller.Table.RollDice: a refused settlement is not modelled as the source behaves. This is a won round with bank + 2*bet <= 0, that is a round played with funds (0, 0). The handlers' guards let it happen after any bankruptcy that leaves both confirmation flags set, since `resetBankAndBet` keeps them: a mid-round one (a point set with the whole bank wagered), or an end-of-round one followed by Start (`StartAfterBankruptcy`). Only the window's button enabling, which the model leaves out, makes the case unreachable: `displayReset` disables Roll, and Start stays disabled until Reset. In the source, the exception is thrown from inside `setWins` and escapes `roll`, so `checkBankBalance` never runs. The engine keeps `active` true, the player counter it just raised, the point and the total, and the remaining notifications are skipped. The model instead finishes the roll, finds the bank at 0 and takes the bankruptcy path: `active` false, both counters 0, point 0 and total 0, with funds (0, 0).
- Controller.Table.RollDice: the contract states the engine and ledger fields but not the two event logs. The logs follow from the component methods' contracts.
- Controller.Table.PlayAgain: the contract does not state the event logs.
- Controller.Table.Reset: the contract does not state the event logs.
- Java's 32-bit `int` wrap-around is not modelled. Counters, `bank + 2*bet` and `bank + bet` are unbounded integers.
- The singleton accessors (`getCrapsInstance`, `getBankBetInstance`) are left out; the objects are passed explicitly.
- The getters are not separate members, because the fields are readable directly.
- `toString` and the unused `myCheckReduction` field are left out.
- The raw setters `setPoint`, `setTotal`, `setPlayerWins`, `setHouseWins`, `setDie1` and `setDie2` are left out. They bypass the game invariant and only tests call them.
- The bank and bet text-field listeners in BankPanel are left out. They are number parsing, the UI-side upward clamp of a lower bet, and the remembered previous bet.
- MenuBar's own `start` notification and all button enabling and disabling are left out, because they are presentation.
