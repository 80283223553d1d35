/** The bot's command handlers (`/start`, `/balance`, `/roll`, `/deposit`,
    `/withdraw` in bot.py), each one read-validate-write step on the users
    table, modelled as a pure transition from the table before to the table
    after, together with the reply the user sees and the external calls made.

    Everything the handlers obtain from outside is a parameter:
    - `floatOf` is Python's `float()` applied to the amount argument (`None`
      when it raises ValueError);
    - `d1`, `d2` are the two `random.randint(1, 6)` draws;
    - `tatum` is what the Tatum wallet endpoints yielded for a supported
      symbol (`None` for an HTTP error or a missing field);
    - `transfer` is what `process_withdrawal` returned. */
module Handlers {
  import opened Wrappers
  import opened Assets
  import opened Amounts
  import opened Ledger

  /** What the user is told; message wording is not modelled, the data in it is. */
  datatype Reply =
    | Welcome
    | WelcomeBack
    | Usage
    | InvalidCrypto
    | InvalidAmount
    | NotRegistered
    | InsufficientBalance(symbol: string, balance: real)
    | Balances(balances: map<string, real>)
    | Rolled(d1: int, d2: int, won: bool, shown: real, newBalance: real)
    | DepositAddress(symbol: string, address: string)
    | IssuanceFailed(symbol: string)
    | WithdrawalFailed(message: string)
    | Withdrew(amount: real, destination: string, newBalance: real)

  /** A call to code outside the ledger. */
  datatype Call =
    | GenerateAddress(symbol: string)
    | Transfer(symbol: string, amount: real, destination: string)

  /** The outcome of one handler run. */
  datatype Step = Step(table: Table, reply: Reply, calls: seq<Call>)

  /** The pair `(success, message)` returned by `process_withdrawal`. */
  datatype TransferResult = TransferResult(success: bool, message: string)

  // ---------------------------------------------------------------------
  // /start

  /** Registers an unknown user with the starting balances and no addresses;
      a known user is only welcomed back. */
  function Start(t: Table, uid: UserId): (r: Step)
    ensures r.calls == []
    ensures uid in t ==> r.table == t && r.reply == WelcomeBack
    ensures uid !in t ==>
              && r.reply == Welcome
              && r.table.Keys == t.Keys + {uid}
              && r.table[uid].balances == StartingBalances
              && r.table[uid].depositAddresses == map[]
              && (forall u :: u in t ==> r.table[u] == t[u])
    ensures NonNegative(t) ==> NonNegative(r.table)
    ensures AddressesKept(t, r.table)
  {
    if uid in t then Step(t, WelcomeBack, [])
    else Step(t[uid := User(StartingBalances, map[])], Welcome, [])
  }

  // ---------------------------------------------------------------------
  // /balance

  /** Shows every stored balance of a registered user. */
  function Balance(t: Table, uid: UserId): (r: Reply)
    ensures r == NotRegistered <==> uid !in t
    ensures uid in t ==> r.Balances? && r.balances == t[uid].balances
  {
    if uid in t then Balances(t[uid].balances) else NotRegistered
  }

  // ---------------------------------------------------------------------
  // The checks shared by /roll and /withdraw, in the source's order

  datatype Check = Reject(reply: Reply) | Accept(asset: Asset, bet: real, current: real)

  /** Symbol, then amount, then registration, then funds. */
  function CheckBet(t: Table, uid: UserId, symbolArg: string, amountArg: string,
                    floatOf: string -> Option<Float>): (c: Check)
    ensures c == Reject(InvalidCrypto) <==> ParseSymbol(symbolArg).None?
    ensures c == Reject(InvalidAmount) <==>
              ParseSymbol(symbolArg).Some? && AmountGate(floatOf(amountArg)).None?
    ensures c == Reject(NotRegistered) <==>
              ParseSymbol(symbolArg).Some? && AmountGate(floatOf(amountArg)).Some? && uid !in t
    ensures c.Accept? <==>
              && ParseSymbol(symbolArg).Some?
              && AmountGate(floatOf(amountArg)).Some?
              && uid in t
              && Covers(BalanceOf(t[uid], Symbol(ParseSymbol(symbolArg).value)),
                        AmountGate(floatOf(amountArg)).value)
    ensures c.Reject? ==> c.reply in {InvalidCrypto, InvalidAmount, NotRegistered} || c.reply.InsufficientBalance?
    ensures c.Reject? && c.reply.InsufficientBalance? ==>
              && ParseSymbol(symbolArg).Some? && uid in t
              && var s := Symbol(ParseSymbol(symbolArg).value);
                 c.reply == InsufficientBalance(s, BalanceOf(t[uid], s))
    ensures c.Accept? ==>
              && uid in t
              && ParseSymbol(symbolArg) == Some(c.asset)
              && floatOf(amountArg) == Some(Finite(c.bet))
              && c.current == BalanceOf(t[uid], Symbol(c.asset))
              && Symbol(c.asset) in t[uid].balances
              && 0.0 < c.bet <= c.current
  {
    match ParseSymbol(symbolArg)
    case None => Reject(InvalidCrypto)
    case Some(a) =>
      match AmountGate(floatOf(amountArg))
      case None => Reject(InvalidAmount)
      case Some(stake) =>
        if uid !in t then Reject(NotRegistered)
        else
          var current := BalanceOf(t[uid], Symbol(a));
          if !Covers(current, stake) then Reject(InsufficientBalance(Symbol(a), current))
          else Accept(a, stake.v, current)
  }

  // ---------------------------------------------------------------------
  // /roll

  /** A roll is won when the two dice total at least 7. */
  predicate Wins(d1: int, d2: int) {
    d1 + d2 >= 7
  }

  /** Settles a bet: a win adds the bet to the balance, a loss subtracts it.
      The reply shows twice the bet as winnings; only the bet is credited. */
  function Roll(t: Table, uid: UserId, args: seq<string>, floatOf: string -> Option<Float>,
                d1: int, d2: int): (r: Step)
    requires 1 <= d1 <= 6 && 1 <= d2 <= 6
    ensures r.calls == []
    ensures |args| != 2 ==> r.table == t && r.reply == Usage
    ensures !r.reply.Rolled? ==> r.table == t
    ensures |args| == 2 && CheckBet(t, uid, args[0], args[1], floatOf).Reject? ==>
              r.reply == CheckBet(t, uid, args[0], args[1], floatOf).reply
    ensures r.reply.Rolled? <==> |args| == 2 && CheckBet(t, uid, args[0], args[1], floatOf).Accept?
    ensures r.reply.Rolled? ==>
              var c := CheckBet(t, uid, args[0], args[1], floatOf);
              var s := Symbol(c.asset);
              && BalanceFrame(t, r.table, uid, s)
              && (d1 + d2 >= 7 ==> r.table[uid].balances[s] == c.current + c.bet)
              && (d1 + d2 <= 6 ==> r.table[uid].balances[s] == c.current - c.bet)
              && r.reply.d1 == d1 && r.reply.d2 == d2
              && r.reply.won == (d1 + d2 >= 7)
              && r.reply.newBalance == r.table[uid].balances[s]
              && r.reply.shown == (if r.reply.won then 2.0 * c.bet else c.bet)
    ensures NonNegative(t) ==> NonNegative(r.table)
    ensures AddressesKept(t, r.table)
  {
    if |args| != 2 then Step(t, Usage, [])
    else
      match CheckBet(t, uid, args[0], args[1], floatOf)
      case Reject(reply) => Step(t, reply, [])
      case Accept(a, bet, current) =>
        var won := Wins(d1, d2);
        var newBalance := if won then current + bet else current - bet;
        var shown := if won then bet * 2.0 else bet;
        SetBalanceNonNegativeIfValid(t, uid, Symbol(a), newBalance);
        Step(SetBalance(t, uid, Symbol(a), newBalance), Rolled(d1, d2, won, shown, newBalance), [])
  }

  /** Bridges SetBalanceNonNegative into the implication the handlers state. */
  lemma SetBalanceNonNegativeIfValid(t: Table, uid: UserId, symbol: string, v: real)
    requires uid in t && symbol in t[uid].balances && v >= 0.0
    ensures NonNegative(t) ==> NonNegative(SetBalance(t, uid, symbol, v))
  {
    if NonNegative(t) {
      SetBalanceNonNegative(t, uid, symbol, v);
    }
  }

  // ---------------------------------------------------------------------
  // /deposit

  /** `generate_deposit_address`: unsupported symbols yield no address without
      contacting Tatum; otherwise the result is whatever Tatum yielded. */
  function GenerateDepositAddress(crypto: string, tatum: Option<string>): (r: Option<string>)
    ensures crypto !in ValidCryptos ==> r == None
    ensures crypto in ValidCryptos ==> r == tatum
  {
    match ChainFor(crypto)
    case None => None
    case Some(_) => tatum
  }

  /** Python's truthiness test `if not address`: `None` and "" both fail. */
  predicate Usable(address: Option<string>) {
    address.Some? && address.value != ""
  }

  /** Returns the cached address for the asset, or generates, stores and
      returns a new one; a failed generation stores nothing. */
  function Deposit(t: Table, uid: UserId, args: seq<string>, tatum: Option<string>): (r: Step)
    ensures !r.reply.DepositAddress? ==> r.table == t
    ensures |args| != 1 ==> r == Step(t, Usage, [])
    ensures |args| == 1 && ParseSymbol(args[0]).None? ==> r == Step(t, InvalidCrypto, [])
    ensures |args| == 1 && ParseSymbol(args[0]).Some? && uid !in t ==> r == Step(t, NotRegistered, [])
    ensures r.calls != [] <==>
              && |args| == 1 && ParseSymbol(args[0]).Some? && uid in t
              && Symbol(ParseSymbol(args[0]).value) !in t[uid].depositAddresses
    ensures r.calls != [] ==> r.calls == [GenerateAddress(Symbol(ParseSymbol(args[0]).value))]
    ensures |args| == 1 && ParseSymbol(args[0]).Some? && uid in t ==>
              var s := Symbol(ParseSymbol(args[0]).value);
              var cached := t[uid].depositAddresses;
              && (s in cached ==> r == Step(t, DepositAddress(s, cached[s]), []))
              && (s !in cached && !Usable(tatum) ==> r.table == t && r.reply == IssuanceFailed(s))
              && (s !in cached && Usable(tatum) ==>
                    && r.reply == DepositAddress(s, tatum.value)
                    && r.table.Keys == t.Keys
                    && (forall u :: u in t && u != uid ==> r.table[u] == t[u])
                    && r.table[uid].balances == t[uid].balances
                    && r.table[uid].depositAddresses.Keys == cached.Keys + {s})
    ensures r.reply.DepositAddress? ==>
              && uid in r.table
              && r.reply.symbol in r.table[uid].depositAddresses
              && r.table[uid].depositAddresses[r.reply.symbol] == r.reply.address
    ensures forall u :: u in t ==> u in r.table && r.table[u].balances == t[u].balances
    ensures r.table.Keys == t.Keys
    ensures NonNegative(t) ==> NonNegative(r.table)
    ensures AddressesKept(t, r.table)
  {
    if |args| != 1 then Step(t, Usage, [])
    else
      match ParseSymbol(args[0])
      case None => Step(t, InvalidCrypto, [])
      case Some(a) =>
        if uid !in t then Step(t, NotRegistered, [])
        else
          var s := Symbol(a);
          var cached := t[uid].depositAddresses;
          if s in cached then Step(t, DepositAddress(s, cached[s]), [])
          else
            var generated := GenerateDepositAddress(s, tatum);
            if !Usable(generated) then Step(t, IssuanceFailed(s), [GenerateAddress(s)])
            else
              var address := generated.value;
              Step(t[uid := t[uid].(depositAddresses := cached[s := address])],
                   DepositAddress(s, address), [GenerateAddress(s)])
  }

  // ---------------------------------------------------------------------
  // /withdraw

  /** `process_withdrawal`: the transfer is simulated, so it succeeds for
      every symbol the chain table knows and fails for any other. */
  function ProcessWithdrawal(crypto: string, amount: real, destination: string): (r: TransferResult)
    ensures r.success <==> crypto in ValidCryptos
    ensures !r.success ==> r.message == "Unsupported cryptocurrency"
  {
    match ChainFor(crypto)
    case None => TransferResult(false, "Unsupported cryptocurrency")
    case Some(_) => TransferResult(true, "Withdrawal simulated successfully (testnet)")
  }

  /** Runs the shared checks, then the transfer, and debits the amount only
      once the transfer has reported success. */
  function Withdraw(t: Table, uid: UserId, args: seq<string>, floatOf: string -> Option<Float>,
                    transfer: TransferResult): (r: Step)
    ensures |args| != 3 ==> r == Step(t, Usage, [])
    ensures |args| == 3 && CheckBet(t, uid, args[0], args[1], floatOf).Reject? ==>
              r == Step(t, CheckBet(t, uid, args[0], args[1], floatOf).reply, [])
    ensures r.calls != [] <==> |args| == 3 && CheckBet(t, uid, args[0], args[1], floatOf).Accept?
    ensures r.calls != [] ==>
              var c := CheckBet(t, uid, args[0], args[1], floatOf);
              r.calls == [Transfer(Symbol(c.asset), c.bet, args[2])]
    ensures !transfer.success ==> r.table == t
    ensures r.table != t ==> r.calls != [] && transfer.success
    ensures r.calls != [] && !transfer.success ==> r.reply == WithdrawalFailed(transfer.message)
    ensures r.calls != [] && transfer.success ==>
              var c := CheckBet(t, uid, args[0], args[1], floatOf);
              var s := Symbol(c.asset);
              && BalanceFrame(t, r.table, uid, s)
              && r.table[uid].balances[s] == c.current - c.bet
              && r.reply == Withdrew(c.bet, args[2], c.current - c.bet)
    ensures NonNegative(t) ==> NonNegative(r.table)
    ensures AddressesKept(t, r.table)
  {
    if |args| != 3 then Step(t, Usage, [])
    else
      match CheckBet(t, uid, args[0], args[1], floatOf)
      case Reject(reply) => Step(t, reply, [])
      case Accept(a, amount, current) =>
        var s := Symbol(a);
        var calls := [Transfer(s, amount, args[2])];
        if !transfer.success then Step(t, WithdrawalFailed(transfer.message), calls)
        else
          var newBalance := current - amount;
          SetBalanceNonNegativeIfValid(t, uid, s, newBalance);
          Step(SetBalance(t, uid, s, newBalance), Withdrew(amount, args[2], newBalance), calls)
  }
}
