/** The `users` table: one row per Telegram user holding a balance per symbol
    and a deposit address per symbol (bot.py). Symbols are the table's string
    keys, so rows written by other tools may hold symbols outside the four. */
module Ledger {
  import opened Wrappers

  type UserId = int

  datatype User = User(balances: map<string, real>, depositAddresses: map<string, string>)

  type Table = map<UserId, User>

  /** Balances given to a newly registered user. */
  const StartingBalances: map<string, real> :=
    map["SOL" := 10.0, "LTC" := 10.0, "BTC" := 0.001, "ETH" := 10.0]

  /** `balances.get(symbol, 0.0)`: a missing symbol reads as zero. */
  function BalanceOf(u: User, symbol: string): (b: real)
    ensures symbol !in u.balances ==> b == 0.0
    ensures symbol in u.balances ==> b == u.balances[symbol]
  {
    if symbol in u.balances then u.balances[symbol] else 0.0
  }

  /** No balance of any user, for any symbol, is negative. */
  predicate NonNegative(t: Table) {
    forall u, s :: u in t && s in t[u].balances ==> t[u].balances[s] >= 0.0
  }

  /** `after` differs from `before` at most in user `uid`'s balance for
      `symbol`, which already existed: no user, no key and no address is
      added, removed or changed. */
  predicate BalanceFrame(before: Table, after: Table, uid: UserId, symbol: string) {
    && uid in before
    && after.Keys == before.Keys
    && (forall u :: u in before && u != uid ==> after[u] == before[u])
    && symbol in before[uid].balances
    && after[uid].depositAddresses == before[uid].depositAddresses
    && after[uid].balances.Keys == before[uid].balances.Keys
    && (forall s :: s in before[uid].balances && s != symbol ==>
          after[uid].balances[s] == before[uid].balances[s])
  }

  /** Every address present in `before` is present, unchanged, in `after`. */
  predicate AddressesKept(before: Table, after: Table) {
    forall u, s :: u in before && s in before[u].depositAddresses ==>
      u in after && s in after[u].depositAddresses &&
      after[u].depositAddresses[s] == before[u].depositAddresses[s]
  }

  /** Writes `v` as `uid`'s balance for `symbol`. */
  function SetBalance(t: Table, uid: UserId, symbol: string, v: real): (r: Table)
    requires uid in t && symbol in t[uid].balances
    ensures BalanceFrame(t, r, uid, symbol)
    ensures r[uid].balances[symbol] == v
  {
    t[uid := t[uid].(balances := t[uid].balances[symbol := v])]
  }

  /** Writing a non-negative balance keeps every balance non-negative. */
  lemma SetBalanceNonNegative(t: Table, uid: UserId, symbol: string, v: real)
    requires uid in t && symbol in t[uid].balances
    requires NonNegative(t) && v >= 0.0
    ensures NonNegative(SetBalance(t, uid, symbol, v))
  {
  }
}
