/**
 * The fixed addresses, identifiers and thresholds of the indexer
 * (src/utils/constants.ts, with the literals that the helpers inline).
 */
module Constants {

  const ETH_ADDRESS := "0x0000000000000000000000000000000000000000"
  const CETH_ADDRESS := "0x4ddc2d193948926d02f9b1fe9e1daa0718270ed5"
  const SAI_ADDRESS := "0x89d24a6b4ccb1b6faa2625fe562bdd9a23260359"
  const USDC_ADDRESS := "0xa0b86991c6218b36c1d19d4a2e9eb0ce3606eb48"
  const CUSDC_ADDRESS := "0x39aa39c021dfbae8fac545936693ac917d5e7563"
  /** The first price oracle, used only at the very beginning of the protocol. */
  const PRICE_ORACLE_1_ADDRESS := "0x02557a5e05defeffd4cae6d83ea3d173b272c904"
  /** The second oracle as hard-coded by the market-listing handler, trailing space included. */
  const PRICE_ORACLE_2_LISTING_ADDRESS := "0x6d2299c48a8dd07a872fdd0f8233924872ad1071 "

  const PROTOCOL_ID := "1"

  const SEC_PER_HOUR: nat := 3600
  const SEC_PER_DAY: nat := 86400
  const SEC_PER_WEEK: nat := 604800

  /** Blocks after this one read prices from the second oracle. */
  const PRICE_ORACLE_1_CHANGED_TO_2_BLOCK_NUMBER: nat := 7715908
  /** Blocks after this one price markets in USD instead of ETH. */
  const USD_PRICE_BASE_BLOCK_NUMBER: nat := 10678764

  /** The per-block rate multiplier used for borrow and supply rates. */
  const BLOCKS_PER_YEAR: real := 2102400.0
}
