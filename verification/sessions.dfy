/** Properties that relate several handler runs: what holds after any
    sequence of commands, and what repeating or undoing a command does. */
module Sessions {
  import opened Wrappers
  import opened Assets
  import opened Amounts
  import opened Ledger
  import opened Handlers

  /** One command as the bot receives it, with the outside world's answers. */
  datatype Command =
    | CmdStart(uid: UserId)
    | CmdBalance(uid: UserId)
    | CmdRoll(uid: UserId, args: seq<string>, floatOf: string -> Option<Float>, d1: int, d2: int)
    | CmdDeposit(uid: UserId, args: seq<string>, tatum: Option<string>)
    | CmdWithdraw(uid: UserId, args: seq<string>, floatOf: string -> Option<Float>, transfer: TransferResult)

  /** Dice answers are within 1..6. */
  predicate WellFormed(c: Command) {
    c.CmdRoll? ==> 1 <= c.d1 <= 6 && 1 <= c.d2 <= 6
  }

  predicate AllWellFormed(cmds: seq<Command>) {
    forall i :: 0 <= i < |cmds| ==> WellFormed(cmds[i])
  }

  /** Runs one command against the table. */
  function Apply(t: Table, c: Command): (r: Table)
    requires WellFormed(c)
    ensures NonNegative(t) ==> NonNegative(r)
    ensures AddressesKept(t, r)
    ensures t.Keys <= r.Keys
  {
    match c
    case CmdStart(uid) => Start(t, uid).table
    case CmdBalance(_) => t
    case CmdRoll(uid, args, floatOf, d1, d2) => Roll(t, uid, args, floatOf, d1, d2).table
    case CmdDeposit(uid, args, tatum) => Deposit(t, uid, args, tatum).table
    case CmdWithdraw(uid, args, floatOf, transfer) => Withdraw(t, uid, args, floatOf, transfer).table
  }

  /** Runs the commands one after another, each seeing the previous one's table. */
  function Run(t: Table, cmds: seq<Command>): Table
    requires AllWellFormed(cmds)
    decreases |cmds|
  {
    if cmds == [] then t else Run(Apply(t, cmds[0]), cmds[1..])
  }

  /** No sequence of commands ever makes a balance negative. */
  lemma {:induction false} RunNonNegative(t: Table, cmds: seq<Command>)
    requires AllWellFormed(cmds)
    requires NonNegative(t)
    ensures NonNegative(Run(t, cmds))
    decreases |cmds|
  {
    if cmds != [] {
      RunNonNegative(Apply(t, cmds[0]), cmds[1..]);
    }
  }

  /** An issued deposit address survives any sequence of commands unchanged,
      and no registered user disappears. */
  lemma {:induction false} RunKeepsAddresses(t: Table, cmds: seq<Command>)
    requires AllWellFormed(cmds)
    ensures AddressesKept(t, Run(t, cmds))
    ensures t.Keys <= Run(t, cmds).Keys
    decreases |cmds|
  {
    if cmds != [] {
      var t1 := Apply(t, cmds[0]);
      RunKeepsAddresses(t1, cmds[1..]);
      AddressesKeptTransitive(t, t1, Run(t1, cmds[1..]));
    }
  }

  lemma AddressesKeptTransitive(a: Table, b: Table, c: Table)
    requires AddressesKept(a, b) && AddressesKept(b, c)
    ensures AddressesKept(a, c)
  {
  }

  /** Registering twice is registering once: the second /start only welcomes
      the user back. */
  lemma StartIdempotent(t: Table, uid: UserId)
    ensures Start(Start(t, uid).table, uid) == Step(Start(t, uid).table, WelcomeBack, [])
  {
  }

  /** A user who has just registered is shown exactly the starting balances. */
  lemma StartThenBalance(t: Table, uid: UserId)
    requires uid !in t
    ensures Balance(Start(t, uid).table, uid) == Balances(StartingBalances)
    ensures Balance(t, uid) == NotRegistered
  {
  }

  /** Once /deposit has handed out an address, repeating the command returns
      the identical address, calls no generator and changes nothing, whatever
      the generator would have answered. */
  lemma DepositRepeatIsSticky(t: Table, uid: UserId, args: seq<string>,
                              first: Option<string>, second: Option<string>)
    requires Deposit(t, uid, args, first).reply.DepositAddress?
    ensures var t1 := Deposit(t, uid, args, first).table;
            Deposit(t1, uid, args, second) == Step(t1, Deposit(t, uid, args, first).reply, [])
  {
  }

  /** Winning a roll and then losing the same bet on the same asset restores
      the table exactly: the loss is accepted because the win left the balance
      above the bet. */
  lemma RollWinThenLoseRestores(t: Table, uid: UserId, args: seq<string>,
                                floatOf: string -> Option<Float>,
                                w1: int, w2: int, l1: int, l2: int)
    requires 1 <= w1 <= 6 && 1 <= w2 <= 6 && 1 <= l1 <= 6 && 1 <= l2 <= 6
    requires w1 + w2 >= 7 && l1 + l2 <= 6
    requires Roll(t, uid, args, floatOf, w1, w2).reply.Rolled?
    ensures var t1 := Roll(t, uid, args, floatOf, w1, w2).table;
            var r2 := Roll(t1, uid, args, floatOf, l1, l2);
            r2.reply.Rolled? && !r2.reply.won && r2.table == t
  {
    var c := CheckBet(t, uid, args[0], args[1], floatOf);
    var s := Symbol(c.asset);
    var t1 := Roll(t, uid, args, floatOf, w1, w2).table;
    assert t1[uid].balances[s] == c.current + c.bet;
    var c1 := CheckBet(t1, uid, args[0], args[1], floatOf);
    assert c1.Accept?;
    assert c1.asset == c.asset && c1.bet == c.bet;
    var t2 := Roll(t1, uid, args, floatOf, l1, l2).table;
    assert t2[uid].balances == t[uid].balances;
    assert t2[uid] == t[uid];
  }

  /** With the simulated transfer of `process_withdrawal`, every withdrawal
      that passes the checks goes through and debits exactly the amount. */
  lemma SimulatedWithdrawalAlwaysDebits(t: Table, uid: UserId, args: seq<string>,
                                        floatOf: string -> Option<Float>)
    requires |args| == 3 && CheckBet(t, uid, args[0], args[1], floatOf).Accept?
    ensures var c := CheckBet(t, uid, args[0], args[1], floatOf);
            var r := Withdraw(t, uid, args, floatOf, ProcessWithdrawal(Symbol(c.asset), c.bet, args[2]));
            && r.reply == Withdrew(c.bet, args[2], c.current - c.bet)
            && r.table[uid].balances[Symbol(c.asset)] == c.current - c.bet
  {
    var c := CheckBet(t, uid, args[0], args[1], floatOf);
    ParseSymbolOfSymbol(c.asset);
  }

  /** On every amount other than NaN, the shared checks accept exactly what
      the source's written guards (`amount <= 0`, `current < amount`) accept
      for a registered user and a supported asset. */
  lemma CheckBetAgreesWritten(t: Table, uid: UserId, a: Asset, amountArg: string,
                              floatOf: string -> Option<Float>)
    requires uid in t && floatOf(amountArg).Some? && !floatOf(amountArg).value.NaN?
    ensures CheckBet(t, uid, Symbol(a), amountArg, floatOf).Accept? <==>
            AsWrittenDebit(BalanceOf(t[uid], Symbol(a)), floatOf(amountArg).value).Some?
  {
    ParseSymbolOfSymbol(a);
  }

  /** A successful withdrawal writes back exactly the corrected debit of the
      current balance by the parsed amount. */
  lemma WithdrawWritesDebit(t: Table, uid: UserId, args: seq<string>,
                            floatOf: string -> Option<Float>, transfer: TransferResult)
    requires |args| == 3 && transfer.success
    requires CheckBet(t, uid, args[0], args[1], floatOf).Accept?
    ensures var c := CheckBet(t, uid, args[0], args[1], floatOf);
            var s := Symbol(c.asset);
            && Debit(BalanceOf(t[uid], s), floatOf(args[1])).Some?
            && Withdraw(t, uid, args, floatOf, transfer).table[uid].balances[s]
               == Debit(BalanceOf(t[uid], s), floatOf(args[1])).value
  {
  }

  /** A lost roll writes back exactly the corrected debit of the current
      balance by the bet. */
  lemma RollLossWritesDebit(t: Table, uid: UserId, args: seq<string>,
                            floatOf: string -> Option<Float>, d1: int, d2: int)
    requires 1 <= d1 <= 6 && 1 <= d2 <= 6 && d1 + d2 <= 6
    requires |args| == 2 && CheckBet(t, uid, args[0], args[1], floatOf).Accept?
    ensures var c := CheckBet(t, uid, args[0], args[1], floatOf);
            var s := Symbol(c.asset);
            && Debit(BalanceOf(t[uid], s), floatOf(args[1])).Some?
            && Roll(t, uid, args, floatOf, d1, d2).table[uid].balances[s]
               == Debit(BalanceOf(t[uid], s), floatOf(args[1])).value
  {
  }

  /** The worked example: a new user bets 1 SOL; dice 4 and 5 (total 9) leave
      11 SOL, dice 2 and 3 (total 5) leave 9 SOL. */
  lemma RollExample(t: Table, uid: UserId)
    requires uid !in t
    ensures var t0 := Start(t, uid).table;
            var one := (s: string) => Some(Finite(1.0));
            && Roll(t0, uid, ["SOL", "1"], one, 4, 5).table[uid].balances["SOL"] == 11.0
            && Roll(t0, uid, ["SOL", "1"], one, 2, 3).table[uid].balances["SOL"] == 9.0
  {
    ParseSymbolOfSymbol(SOL);
  }
}
