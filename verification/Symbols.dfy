/** Instruments. The 64-bit sid of a symbol identifies it, so symbols are compared as values. */
module Symbols {
  import opened Results

  datatype SecurityType = Base | Equity | OptionContract | CryptoFuture | OtherType

  datatype Symbol = Symbol(sid: nat, securityType: SecurityType, hyperliquid: bool, underlying: Option<Symbol>)
}
