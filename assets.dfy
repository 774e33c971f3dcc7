/** The per-source results an aggregation pass builds and hands to the report and the ledger. */
module Assets {
  import opened Wrappers
  import opened Pricing

  /** Holdings at or below this amount are left out of the display lists (but not out of the sums). */
  const Dust: real := 0.001

  /** One row of a display list: `{'asset', 'total', 'free', 'locked', 'account_type'}`. */
  datatype Entry = Entry(asset: string, total: real, free: real, locked: real, accountType: SubAccount)

  /** What `check_binance_account_silent` returns. */
  datatype BinanceResult = BinanceResult(
    totalUsdt: real,
    spotTotalUsdt: real,
    fundingTotalUsdt: real,
    balances: seq<Entry>,
    spotBalances: seq<Entry>,
    fundingBalances: seq<Entry>,
    note: string)

  /** What `check_okx_wallet_silent` returns. */
  datatype WalletResult = WalletResult(totalUsd: real, address: string, chains: string, note: string, fetchSuccess: bool)

  /** The `user_assets` dictionary of `check_user_assets`. */
  datatype UserAssets = UserAssets(binance: Option<BinanceResult>, okxWallet: Option<WalletResult>, totalUsd: real)

  /** What a wallet result adds to the user total: its value only when the fetch succeeded. */
  function WalletContribution(w: Option<WalletResult>): real
  {
    if w.Some? && w.value.fetchSuccess then w.value.totalUsd else 0.0
  }

  function BinanceContribution(b: Option<BinanceResult>): real
  {
    if b.Some? then b.value.totalUsdt else 0.0
  }
}
