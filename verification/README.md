# Casino bot ledger — Dafny model

This project models the per-user multi-asset ledger kept by a Telegram casino
bot (`bot.py`). The bot keeps one row per Telegram user in a `users` table,
with a balance per asset symbol and a deposit address per asset symbol. Five
command handlers read and write that row:

- `/start` registers a new user with 10 SOL, 10 LTC, 0.001 BTC and 10 ETH and no addresses.
- `/balance` shows the stored balances.
- `/roll <crypto> <amount>` throws two dice and adds or subtracts the bet.
- `/deposit <crypto>` returns the cached deposit address, or obtains and stores a new one.
- `/withdraw <crypto> <amount> <address>` runs the (simulated) transfer and then debits the amount.

Each handler is modelled as a pure function from the table before to a `Step`.
A `Step` holds the table after, the reply the user sees and the external calls
made. Everything the handlers get from outside is a parameter:

- the result of Python's `float()` on the amount argument;
- the two dice;
- what the Tatum wallet endpoints produced;
- what `process_withdrawal` returned.

The files:

- `wrappers.dfy`: `Option`.
- `assets.dfy` (module `Assets`): the four assets, the case-insensitive symbol check and the symbol-to-chain table.
- `amounts.dfy` (module `Amounts`): parsed amounts, including Python's `inf`/`nan`, and the amount and funds guards, both as written and as intended.
- `ledger.dfy` (module `Ledger`): the users table, the starting balances, the non-negativity invariant and the frame predicates.
- `handlers.dfy` (module `Handlers`): the handlers and the two external helpers `generate_deposit_address` and `process_withdrawal`.
- `sessions.dfy` (module `Sessions`): properties of command sequences, repeated commands and undone bets.

## Model

| member | source | states |
|---|---|---|
| Assets.ParseSymbol | bot.py:190-198 | a symbol argument is accepted exactly when its upper-cased form is one of SOL, LTC, BTC, ETH, and it then names the asset with that symbol |
| Assets.ParseSymbolExact | bot.py:190-193 | for every argument and asset: the argument is parsed as that asset if and only if it upper-cases to the asset's symbol |
| Assets.ParseSymbolOfSymbol | bot.py:191-193 | each asset's own symbol is accepted and parsed back to the same asset, and the chain table knows it |
| Assets.ParseSymbolIgnoresCase | bot.py:190 | "sol" and "Eth" are accepted as SOL and ETH; "doge" is rejected |
| Assets.ChainFor | bot.py:45-54 | the chain lookup succeeds exactly for the four accepted symbols, and every chain name it returns is non-empty, so `if not chain` fires only for a missing symbol |
| Assets.ChainTableCoversExactlyValidSymbols | bot.py:96-104 | the chain table's keys are exactly the handlers' accepted symbols: an argument passes the handlers' check if and only if the chain lookup of its upper-cased form succeeds |
| Amounts.AsWrittenDebit | bot.py:200-237 | with the guards as written (`amount <= 0`, `current < amount`), a debit is accepted exactly when both comparisons are false, and a finite accepted amount leaves a non-negative balance |
| Amounts.AsWrittenDebitAcceptsNaN | bot.py:200-237 | the amount "nan" passes both written guards for every balance, and the balance written back is NaN, which is not `>= 0` |
| Amounts.AmountGate | bot.py:200-209 | an amount is rejected exactly when parsing raised, it is NaN, or it is at most zero; an accepted finite amount is positive and is the parsed value; +inf is accepted as an unbounded stake |
| Amounts.Debit | bot.py:356-372 | an accepted debit leaves a balance between 0 and the old balance, and a NaN amount is never accepted |
| Amounts.DebitAgreesOffNaN | bot.py:336-372 | for every amount other than NaN, the intended guards accept exactly what the written guards accept, and write back the same balance |
| Ledger.BalanceOf | bot.py:220 | a symbol missing from a user's balances reads as 0, a present one as its stored value |
| Ledger.SetBalance | bot.py:240-242 | writing one balance changes only that user's entry for that symbol: no user, key or address is added, removed or altered |
| Ledger.SetBalanceNonNegative | bot.py:240-242 | writing a non-negative balance into a table with no negative balance keeps it free of negative balances |
| Handlers.Start | bot.py:113-139 | an unknown user is added with balances {SOL: 10, LTC: 10, BTC: 0.001, ETH: 10} and no addresses, all other users untouched; a known user leaves the table unchanged; no external call is made |
| Handlers.Balance | bot.py:153-170 | an unregistered user gets the not-registered reply; a registered user sees exactly the stored balances |
| Handlers.CheckBet | bot.py:183-226 | the checks run in the source's order: symbol, then amount, then registration, then funds; each rejection reason holds exactly when the earlier checks pass and its own fails; an accepted bet has 0 < bet <= current balance, and the asset key is present |
| Handlers.Roll | bot.py:178-248 | a wrong argument count or any failed check leaves the table unchanged; otherwise only the user's balance for the chosen asset changes, to current + bet when the dice total at least 7 and to current - bet when they total at most 6; the reply shows twice the bet as winnings; balances stay non-negative and addresses are kept |
| Handlers.GenerateDepositAddress | bot.py:43-54 | an unsupported symbol yields no address; a supported one yields what the wallet service produced |
| Handlers.Deposit | bot.py:256-306 | the generator is called exactly when the user is registered, the symbol is valid and no address is cached for it; a cached address is returned with no call and no change; a missing or empty generated address stores nothing and reports failure; otherwise the new address is stored for that symbol only and returned; balances are never touched and every existing address is kept |
| Handlers.ProcessWithdrawal | bot.py:94-108 | the simulated transfer succeeds exactly for the four supported symbols; any other symbol fails with "Unsupported cryptocurrency" |
| Handlers.Withdraw | bot.py:314-381 | the transfer is requested only after all checks pass; a failed transfer leaves the table unchanged and reports its message; a successful one debits exactly the amount from the chosen asset and changes nothing else; balances stay non-negative and addresses are kept |
| Sessions.Apply | bot.py:400-405 | every handler, dispatched on its command, keeps balances non-negative, keeps every issued address and removes no user |
| Sessions.RunNonNegative | bot.py:178-381 | after any sequence of commands started from a table with no negative balance, no balance is negative |
| Sessions.RunKeepsAddresses | bot.py:287-301 | after any sequence of commands, every deposit address issued before is still present and unchanged, and every registered user is still registered |
| Sessions.StartIdempotent | bot.py:116-139 | a second /start after a first one only welcomes the user back and changes nothing |
| Sessions.StartThenBalance | bot.py:153-170 | before /start an unknown user is told to register; right after /start the same user is shown exactly the starting balances |
| Sessions.DepositRepeatIsSticky | bot.py:287-301 | after /deposit has returned an address, repeating it returns the identical address with no generator call and no change, whatever the generator would answer |
| Sessions.RollWinThenLoseRestores | bot.py:232-242 | a won roll followed by a lost roll with the same arguments is accepted and restores the table exactly |
| Sessions.SimulatedWithdrawalAlwaysDebits | bot.py:364-375 | with the simulated `process_withdrawal`, every withdrawal that passes the checks succeeds and debits exactly the amount |
| Sessions.CheckBetAgreesWritten | bot.py:200-226 | for a registered user, a supported asset and any amount other than NaN, the checks accept exactly when the written guards `amount <= 0` and `current < amount` both come out false |
| Sessions.WithdrawWritesDebit | bot.py:356-375 | a withdrawal whose transfer succeeds stores exactly the corrected debit of the current balance by the parsed amount |
| Sessions.RollLossWritesDebit | bot.py:220-242 | a lost roll stores exactly the corrected debit of the current balance by the bet |
| Sessions.RollExample | bot.py:228-242 | a newly registered user betting 1 SOL ends with 11 SOL on dice 4 and 5, and with 9 SOL on dice 2 and 3 |

## Where the model departs from the code

The model follows `bot.py`, with one exception: the amount check rejects NaN, which the code accepts (see "## Findings").

Some behaviour a ledger of this kind could be expected to have is absent from the code, so it is absent from the model too:

- `bot.py` has no deposit webhook, HMAC signature check, confirmation threshold or transaction log. The Flask `/telegram` route in `app.py` only answers 200.
- `generate_deposit_address` registers no deposit-monitoring subscription.
- A failed write of a new deposit address raises inside `/deposit` and gets the generic error reply. This is left out with the other store failures.
- `/start` checks for an existing row before inserting, so a second `/start` only welcomes the user back (`Handlers.Start`).

## Left out

- Amounts.AmountGate: rejects NaN as an invalid amount, but `bot.py` accepts `float("nan")` because `nan <= 0` is false (see "## Findings").
- Handlers.CheckBet: uses the corrected amount check, so "nan" is rejected with the invalid-amount reply. In `bot.py` it passes both the amount check and the funds check (see "## Findings").
- Handlers.Roll: `/roll SOL nan` is rejected and changes nothing. `bot.py` rolls and writes back a NaN balance (see "## Findings").
- Handlers.Withdraw: `/withdraw SOL nan x` is rejected with no transfer call. `bot.py` calls `process_withdrawal` and writes back a NaN balance (see "## Findings").
- Sessions.Apply: "balances stay non-negative" holds for the corrected handlers only. In `bot.py`, `/roll` and `/withdraw` with "nan" store a NaN balance (see "## Findings").
- Sessions.RunNonNegative: the invariant holds for the corrected handlers only. In `bot.py` a NaN balance is reachable (see "## Findings").
- Telegram dispatch, message text, `/help`, `error_handler` and `main`: user-interface plumbing. Replies are the `Reply` datatype.
- Supabase failures: every `except` branch that answers "Error accessing the database" or a similar message. The store is an in-memory map that never fails, and each handler's select-then-update is one atomic step.
- The read-modify-write race between concurrent handlers on one user: concurrency is out of scope.
- The Supabase startup connection check, environment variables and logging: configuration plumbing.
- The Tatum HTTP calls, including the Solana-direct versus xpub-derivation branching. They are an oracle `Option<string>`; an empty address is treated as a failure, as the handler's `if not address` does.
- `random.randint`: the dice are parameters in 1..6.
- Python's `float()` parser: an oracle from the argument string to an optional float.
- IEEE rounding: finite amounts are exact reals. Overflow of a balance to infinity after repeated wins is therefore not modelled.
- A `deposit_addresses` value of null is read as an empty map, as the handler's `or {}` does. A null or non-numeric `balances` value, which makes the handlers raise, is not modelled.
- Assets.UpperChar: models `str.upper()` only for ASCII letters and the long s (U+017F, which Python upper-cases to 'S'). Other characters are left unchanged, because their case mappings do not spell any of the four symbols.
- `app.py` (a health and webhook stub with no logic) and `test_supabase.py` (a connectivity script) are not part of this model.

## Findings

| source | as written | input that shows it | evidently intended | confidence | as-written member | corrected member |
|---|---|---|---|---|---|---|
| bot.py:200-203, bot.py:220-221, bot.py:237 (and bot.py:336-339, bot.py:356-357, bot.py:372) | The amount is checked with `amount <= 0` and `current_balance < amount`. Python's `float("nan")` is NaN, and both comparisons with NaN are false. | `/withdraw SOL nan x`, or `/roll SOL nan`: both checks pass, and the SOL balance is written back as `current - nan` (or `current + nan` on a win), which is NaN. | A non-numeric amount such as NaN is rejected like any other invalid amount, so balances stay non-negative numbers. | high (reasoned from Python's comparison semantics; not executed) | Amounts.AsWrittenDebitAcceptsNaN | Amounts.Debit |

The handlers in this model use the corrected gate `Amounts.AmountGate`. `Amounts.DebitAgreesOffNaN` proves that the corrected gate agrees with the written one on every amount other than NaN. `Sessions.CheckBetAgreesWritten` proves the same for the handlers' shared checks. `Sessions.WithdrawWritesDebit` and `Sessions.RollLossWritesDebit` prove that the handlers write back the corrected debit `Amounts.Debit`.
