/** Stablecoin classification (src/utils/blockchain/Stablecoin.ts): `isStable` and the
    choice of decimals in `parseValue`. */
module Stablecoin {
  import opened JsText
  import opened Chains

  const USDC_ADDRESS: string := Lower(USDC_ON_XDAI_ADDRESS)
  const WXDAI_STABLE_ADDRESS: string := Lower(WXDAI_ADDRESS)
  const ARMM_WXDAI: string := Lower("0x7349c9eaa538e118725a6130e0f8341509b9f8a0")
  const ARMMV3_WXDAI: string := Lower("0x0ca4f5554dd9da6217d62d8df2816c82bba4157b")
  const ARMMV3_USDC: string := Lower("0xed56f76e9cbc6a64b821e9c016eafbd3db5436d1")
  const USDC_ETHEREUM_ADDRESS: string := Lower("0xA0b86991c6218b36c1d19D4a2e9Eb0cE3606eB48")

  const STABLECOINS: seq<string> :=
    [USDC_ADDRESS, WXDAI_STABLE_ADDRESS, ARMM_WXDAI, ARMMV3_WXDAI, ARMMV3_USDC, USDC_ETHEREUM_ADDRESS]

  const STABLE_6_DECIMALS: seq<string> := [USDC_ADDRESS, ARMMV3_USDC, USDC_ETHEREUM_ADDRESS]

  /** `isStable(token)`: the lower-cased token is one of the listed addresses. */
  predicate IsStable(token: string) {
    Lower(token) in STABLECOINS
  }

  /** Every listed address is already lower-case. */
  lemma ListsAreLowerCase()
    ensures forall s :: s in STABLECOINS ==> IsLowerCase(s)
    ensures forall s :: s in STABLE_6_DECIMALS ==> IsLowerCase(s)
  {
    LowerIsLowerCase(USDC_ON_XDAI_ADDRESS);
    LowerIsLowerCase(WXDAI_ADDRESS);
    LowerIsLowerCase("0x7349c9eaa538e118725a6130e0f8341509b9f8a0");
    LowerIsLowerCase("0x0ca4f5554dd9da6217d62d8df2816c82bba4157b");
    LowerIsLowerCase("0xed56f76e9cbc6a64b821e9c016eafbd3db5436d1");
    LowerIsLowerCase("0xA0b86991c6218b36c1d19D4a2e9Eb0cE3606eB48");
  }

  /** Case does not matter: a token and its lower-cased form are classified alike. */
  lemma IsStableIgnoresCase(token: string)
    ensures IsStable(token) <==> IsStable(Lower(token))
  {
    LowerIdempotent(token);
  }

  /** `isStable` holds for exactly the six listed addresses, up to case. */
  lemma IsStableExactlyTheList(token: string)
    ensures IsStable(token) <==> exists s :: s in STABLECOINS && Lower(token) == s
    ensures forall s :: s in STABLECOINS ==> IsStable(s)
  {
    ListsAreLowerCase();
    forall s | s in STABLECOINS ensures IsStable(s) {
      LowerOfLowerCase(s);
    }
  }

  /** The decimals `parseValue` divides by: 6 for the three USDC addresses, 18
      (`formatEther`) for every other token. */
  function Decimals(token: string): (d: nat)
    ensures d == 6 || d == 18
    ensures d == 6 <==> Lower(token) in STABLE_6_DECIMALS
  {
    if Lower(token) in STABLE_6_DECIMALS then 6 else 18
  }

  /** Every 6-decimal token is a stablecoin. */
  lemma SixDecimalsAreStable(token: string)
    ensures Decimals(token) == 6 ==> IsStable(token)
  {
  }

  function Pow10(n: nat): (p: nat)
    ensures p >= 1
  {
    if n == 0 then 1 else 10 * Pow10(n - 1)
  }

  /** `parseValue(token, value)` as an exact quotient: `value / 10^decimals`. */
  function ParseValue(token: string, value: int): (r: real)
    ensures r * Pow10(Decimals(token)) as real == value as real
  {
    value as real / Pow10(Decimals(token)) as real
  }
}
