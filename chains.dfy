/** Network identifiers and token addresses shared by the RPC layer and the helpers.
    The chain ids are the public EIP-155 ids of the three networks; the helpers that
    compare against `CHAIN_ID__GNOSIS_XDAI` and `CHAIN_ID__ETHEREUM` use the same two
    numbers. The token addresses are declared in constants files that are not part of
    this model; here they are non-empty strings of unknown value, and nothing proved
    depends on what they are. */
module Chains {

  const CHAIN_ID_ETHEREUM: int := 1
  const CHAIN_ID_GNOSIS_XDAI: int := 100
  const CHAIN_ID_POLYGON: int := 137

  /** A contract address as the constants file spells it: never empty. */
  type AddressText = s: string | |s| > 0 witness "0"

  const WXDAI_ADDRESS: AddressText
  const USDC_ON_XDAI_ADDRESS: AddressText
  const RWA_ADDRESS: AddressText
  const REG_ADDRESS: AddressText
  const GNO_ADDRESS: AddressText
  const HONEYSWAP_FACTORY_ADDRESS: AddressText
}
