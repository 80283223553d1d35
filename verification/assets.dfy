/** The four supported assets, the case-insensitive symbol check of the
    command handlers, and the fixed symbol-to-chain table used by address
    generation and withdrawal (bot.py). */
module Assets {
  import opened Wrappers

  datatype Asset = SOL | LTC | BTC | ETH

  /** The ledger key under which an asset's balance and address are stored. */
  function Symbol(a: Asset): string {
    match a
    case SOL => "SOL"
    case LTC => "LTC"
    case BTC => "BTC"
    case ETH => "ETH"
  }

  /** The handlers' list of accepted symbols, in the source's order. */
  const ValidCryptos: seq<string> := ["SOL", "LTC", "BTC", "ETH"]

  /** The symbol-to-chain table shared by address generation and withdrawal. */
  const ChainMap: map<string, string> :=
    map["SOL" := "solana", "ETH" := "ethereum", "LTC" := "litecoin", "BTC" := "bitcoin"]

  /** Upper-casing of one character as far as it can matter for the four
      symbols: ASCII letters, and the long s (U+017F), which Python upper-cases
      to 'S'. Every other character is left as it is. */
  function UpperChar(c: char): char {
    if 'a' <= c <= 'z' then (c as int - 32) as char
    else if c == 'ſ' then 'S'
    else c
  }

  /** `str.upper()` restricted as described at UpperChar. */
  function Upper(s: string): (r: string)
    ensures |r| == |s|
    ensures forall i :: 0 <= i < |s| ==> r[i] == UpperChar(s[i])
  {
    seq(|s|, i requires 0 <= i < |s| => UpperChar(s[i]))
  }

  /** The asset a symbol argument names: the argument is upper-cased and must
      then be one of the accepted symbols. */
  function ParseSymbol(arg: string): (r: Option<Asset>)
    ensures r.Some? <==> Upper(arg) in ValidCryptos
    ensures r.Some? ==> Symbol(r.value) == Upper(arg)
  {
    var u := Upper(arg);
    if u == "SOL" then Some(SOL)
    else if u == "LTC" then Some(LTC)
    else if u == "BTC" then Some(BTC)
    else if u == "ETH" then Some(ETH)
    else None
  }

  /** `chain_map.get(crypto)`: the chain for an (already upper-cased) symbol. */
  function ChainFor(symbol: string): (r: Option<string>)
    ensures r.Some? <==> symbol in ValidCryptos
    ensures r.Some? ==> r.value != ""
  {
    if symbol in ChainMap then Some(ChainMap[symbol]) else None
  }

  /** Every asset's own symbol is accepted, and names that asset again. */
  lemma ParseSymbolOfSymbol(a: Asset)
    ensures ParseSymbol(Symbol(a)) == Some(a)
    ensures ChainFor(Symbol(a)).Some?
  {
    var s := Symbol(a);
    assert Upper(s) == s by {
      assert forall i :: 0 <= i < |s| ==> 'A' <= s[i] <= 'Z';
    }
  }

  /** A symbol is accepted exactly when it upper-cases to the symbol of some
      asset, and then it names that asset. */
  lemma ParseSymbolExact(arg: string, a: Asset)
    ensures ParseSymbol(arg) == Some(a) <==> Upper(arg) == Symbol(a)
  {
  }

  /** Case does not matter: lower-case and mixed-case spellings are accepted. */
  lemma ParseSymbolIgnoresCase()
    ensures ParseSymbol("sol") == Some(SOL)
    ensures ParseSymbol("Eth") == Some(ETH)
    ensures ParseSymbol("doge") == None
  {
    assert Upper("sol") == "SOL";
    assert Upper("Eth") == "ETH";
    assert Upper("doge") == "DOGE";
  }

  /** The symbols that pass the handlers' check and the symbols the chain table
      knows are the same four. */
  lemma ChainTableCoversExactlyValidSymbols(arg: string)
    ensures ParseSymbol(arg).Some? <==> ChainFor(Upper(arg)).Some?
    ensures ChainFor(arg).Some? <==> exists a :: Symbol(a) == arg
  {
    if arg in ValidCryptos {
      var a :| a in {SOL, LTC, BTC, ETH} && Symbol(a) == arg;
    }
  }
}
