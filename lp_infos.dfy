/** Liquidity-pool helpers (src/utils/blockchain/lpInfos.ts): the factory ABI choice,
    the list of other known tokens, the token pairs, the pair-address lookup, and the
    balance matrix of `getAddressesBalances`.

    The factory's `getPair` is an oracle (None when the call throws); the balance calls
    go through the batch executor with one network oracle per user. */
module LpInfos {
  import opened Wrappers
  import opened JsText
  import opened Chains
  import opened BatchExecutor

  /** `enum LP_TYPES { UNIV2 = 2, UNIV3, BALANCER }` */
  const LP_TYPE_UNIV2: int := 2
  const LP_TYPE_UNIV3: int := 3
  const LP_TYPE_BALANCER: int := 4

  /** The only factory ABI the module knows. */
  datatype FactoryAbi = UniswapV2FactoryAbi

  datatype FactoryContract = FactoryContract(address: string, abi: FactoryAbi)

  /** `getFactoryAbi(lpType)`: the Uniswap V2 factory ABI for `UNIV2`, `null` otherwise. */
  function GetFactoryAbi(lpType: int): (r: Option<FactoryAbi>)
    ensures r.Some? <==> lpType == LP_TYPE_UNIV2
  {
    if lpType == LP_TYPE_UNIV2 then Some(UniswapV2FactoryAbi) else None
  }

  /** `getFactoryContract(address, provider, lpType)`: a factory contract at `address`
      when the type has an ABI, `null` otherwise. */
  function GetFactoryContract(factoryAddress: string, lpType: int): (r: Option<FactoryContract>)
    ensures r.Some? <==> lpType == LP_TYPE_UNIV2
    ensures r.Some? ==> r.value.address == factoryAddress
  {
    match GetFactoryAbi(lpType)
    case None => None
    case Some(abi) => Some(FactoryContract(factoryAddress, abi))
  }

  // ---------------------------------------------------------------------------
  // getOtherTokensAddresses

  /** WXDAI, USDC on xDai, RWA, REG and GNO. */
  const KNOWN_TOKENS_GNOSIS: seq<AddressText> := [WXDAI_ADDRESS, USDC_ON_XDAI_ADDRESS, RWA_ADDRESS, REG_ADDRESS, GNO_ADDRESS]
  const KNOWN_TOKENS_ETHEREUM: seq<AddressText> := []

  /** The known-token list of a chain, or None for any other chain. */
  function KnownTokens(chainId: int): (r: Option<seq<string>>)
    ensures r.Some? <==> chainId == CHAIN_ID_GNOSIS_XDAI || chainId == CHAIN_ID_ETHEREUM
    ensures chainId == CHAIN_ID_ETHEREUM ==> r == Some([])
  {
    if chainId == CHAIN_ID_GNOSIS_XDAI then Some(KNOWN_TOKENS_GNOSIS)
    else if chainId == CHAIN_ID_ETHEREUM then Some(KNOWN_TOKENS_ETHEREUM)
    else None
  }

  /** The tokens of `known` whose upper-cased form differs from `upperAddress`, in order. */
  function KeepOthers(known: seq<string>, upperAddress: string): seq<string>
    decreases |known|
  {
    if known == [] then []
    else if Upper(known[0]) != upperAddress then [known[0]] + KeepOthers(known[1..], upperAddress)
    else KeepOthers(known[1..], upperAddress)
  }

  /** The kept tokens are exactly those that differ from the address ignoring case,
      in their original order. */
  lemma {:induction false} KeepOthersSpec(known: seq<string>, upperAddress: string)
    ensures forall x :: x in KeepOthers(known, upperAddress) <==> x in known && Upper(x) != upperAddress
    ensures forall x :: multiset(KeepOthers(known, upperAddress))[x] ==
                        if Upper(x) == upperAddress then 0 else multiset(known)[x]
    ensures IsSubsequence(KeepOthers(known, upperAddress), known)
    decreases |known|
  {
    if known != [] {
      KeepOthersSpec(known[1..], upperAddress);
      assert known == [known[0]] + known[1..];
      assert multiset(known) == multiset([known[0]]) + multiset(known[1..]);
    }
  }

  /** One token of the scan: the kept suffix from `i` is the token (when kept)
      followed by the kept suffix from `i + 1`. */
  lemma KeepOthersStep(tokens: seq<string>, i: nat, upperAddress: string)
    requires i < |tokens|
    ensures KeepOthers(tokens[i..], upperAddress) ==
              (if Upper(tokens[i]) != upperAddress then [tokens[i]] else []) + KeepOthers(tokens[i + 1..], upperAddress)
  {
    assert tokens[i..][1..] == tokens[i + 1..];
  }

  /** The value `getOtherTokensAddresses(contractAddress, chainId)` returns. */
  function OtherTokens(contractAddress: string, chainId: int): seq<string> {
    match KnownTokens(chainId)
    case None => []
    case Some(known) =>
      var upperAddress := Upper(contractAddress);
      if upperAddress == "" then known
      else KeepOthers(known, upperAddress)
  }

  /** The loop of `getOtherTokensAddresses`: push every token whose upper-cased form
      differs from `upperAddress`, in list order. */
  method PushOthers(tokens: seq<string>, upperAddress: string) returns (kept: seq<string>)
    ensures kept == KeepOthers(tokens, upperAddress)
  {
    kept := [];
    var i := 0;
    while i < |tokens|
      invariant 0 <= i <= |tokens|
      invariant kept + KeepOthers(tokens[i..], upperAddress) == KeepOthers(tokens, upperAddress)
    {
      KeepOthersStep(tokens, i, upperAddress);
      if Upper(tokens[i]) != upperAddress {
        assert kept + ([tokens[i]] + KeepOthers(tokens[i + 1..], upperAddress))
            == (kept + [tokens[i]]) + KeepOthers(tokens[i + 1..], upperAddress);
        kept := kept + [tokens[i]];
      }
      i := i + 1;
    }
  }

  /** `getOtherTokensAddresses(contractAddress, chainId)`: unknown chains give `[]`; an
      empty address gives the chain's whole list; otherwise every known token that is
      not the address (compared upper-cased) is pushed, in list order. */
  method GetOtherTokensAddresses(contractAddress: string, chainId: int) returns (contractAddresses: seq<string>)
    ensures contractAddresses == OtherTokens(contractAddress, chainId)
  {
    var contractUpper := Upper(contractAddress);
    var known := KnownTokens(chainId);
    if known.None? {
      return [];
    }
    if contractUpper == "" {
      return known.value;
    }
    contractAddresses := PushOthers(known.value, contractUpper);
  }

  /** What `getOtherTokensAddresses` promises: `[]` off Gnosis and Ethereum, nothing on
      Ethereum, the whole list for an empty address, and otherwise the known tokens that
      differ from the address ignoring case, in order. */
  lemma OtherTokensSpec(contractAddress: string, chainId: int)
    ensures var r := OtherTokens(contractAddress, chainId);
            && (chainId != CHAIN_ID_GNOSIS_XDAI ==> r == [])
            && (chainId == CHAIN_ID_GNOSIS_XDAI && contractAddress == "" ==> r == KNOWN_TOKENS_GNOSIS)
            && (chainId == CHAIN_ID_GNOSIS_XDAI && contractAddress != "" ==>
                  && (forall x :: x in r <==> x in KNOWN_TOKENS_GNOSIS && Upper(x) != Upper(contractAddress))
                  && (forall x :: multiset(r)[x] ==
                        if Upper(x) == Upper(contractAddress) then 0 else multiset(KNOWN_TOKENS_GNOSIS)[x])
                  && IsSubsequence(r, KNOWN_TOKENS_GNOSIS))
  {
    if chainId == CHAIN_ID_GNOSIS_XDAI && contractAddress != "" {
      KeepOthersSpec(KNOWN_TOKENS_GNOSIS, Upper(contractAddress));
    }
  }

  /** The address's case does not matter. */
  lemma OtherTokensIgnoresCase(contractAddress: string, chainId: int)
    ensures OtherTokens(Upper(contractAddress), chainId) == OtherTokens(contractAddress, chainId)
  {
    UpperIdempotent(contractAddress);
  }

  // ---------------------------------------------------------------------------
  // Pairs and pair addresses

  /** `[contractAddress, otherTokenAddress]` */
  datatype TokenPair = TokenPair(token0: string, token1: string)

  /** `getPairs(contractAddress, others)` */
  function GetPairs(contractAddress: string, others: seq<string>): (pairs: seq<TokenPair>)
    ensures |pairs| == |others|
    ensures forall i :: 0 <= i < |others| ==> pairs[i] == TokenPair(contractAddress, others[i])
  {
    seq(|others|, i requires 0 <= i < |others| => TokenPair(contractAddress, others[i]))
  }

  /** The second tokens of the pairs give back the list the pairs were built from. */
  lemma PairsRecoverOthers(contractAddress: string, others: seq<string>)
    ensures var pairs := GetPairs(contractAddress, others);
            seq(|pairs|, i requires 0 <= i < |pairs| => pairs[i].token1) == others
  {
  }

  /** The factory's `getPair(token0, token1)`: None when the call throws. */
  type GetPairOracle = (FactoryContract, string, string) -> Option<string>

  /** `getUniV2PairAddress`: the pair address, or `''` when the call throws. */
  function GetUniV2PairAddress(factory: FactoryContract, pair: TokenPair, getPair: GetPairOracle): (r: string)
    ensures getPair(factory, pair.token0, pair.token1).None? ==> r == ""
    ensures getPair(factory, pair.token0, pair.token1).Some? ==> r == getPair(factory, pair.token0, pair.token1).value
  {
    getPair(factory, pair.token0, pair.token1).GetOr("")
  }

  /** `getUniV2PairAddresses(factory, pairs)`: one address per pair, in order. */
  function GetUniV2PairAddresses(factory: FactoryContract, pairs: seq<TokenPair>, getPair: GetPairOracle): (r: seq<string>)
    ensures |r| == |pairs|
    ensures forall i :: 0 <= i < |pairs| ==> r[i] == GetUniV2PairAddress(factory, pairs[i], getPair)
  {
    seq(|pairs|, i requires 0 <= i < |pairs| => GetUniV2PairAddress(factory, pairs[i], getPair))
  }

  /** `getLpAddresses(tokenAddress, lpType, provider, chainId)` */
  function GetLpAddresses(tokenAddress: string, lpType: int, chainId: int, getPair: GetPairOracle): seq<string> {
    var pairs := GetPairs(tokenAddress, OtherTokens(tokenAddress, chainId));
    if |pairs| == 0 then []
    else if chainId == CHAIN_ID_GNOSIS_XDAI && lpType == LP_TYPE_UNIV2 then
      match GetFactoryContract(HONEYSWAP_FACTORY_ADDRESS, lpType)
      case None => []
      case Some(honeySwap) => GetUniV2PairAddresses(honeySwap, pairs, getPair)
    else []
  }

  /** `getLpAddresses` gives `[]` when there are no pairs, off Gnosis, or for any type
      but `UNIV2`; otherwise one HoneySwap pair address per other token, in order, `''`
      where the lookup failed. */
  lemma LpAddressesSpec(tokenAddress: string, lpType: int, chainId: int, getPair: GetPairOracle)
    ensures var others := OtherTokens(tokenAddress, chainId);
            var r := GetLpAddresses(tokenAddress, lpType, chainId, getPair);
            && (others == [] || chainId != CHAIN_ID_GNOSIS_XDAI || lpType != LP_TYPE_UNIV2 ==> r == [])
            && (others != [] && chainId == CHAIN_ID_GNOSIS_XDAI && lpType == LP_TYPE_UNIV2 ==>
                  && |r| == |others|
                  && forall i :: 0 <= i < |others| ==>
                       r[i] == getPair(FactoryContract(HONEYSWAP_FACTORY_ADDRESS, UniswapV2FactoryAbi), tokenAddress, others[i]).GetOr(""))
  {
  }

  // ---------------------------------------------------------------------------
  // getAddressesBalances

  /** What a `balanceOf` call resolved to, as far as the normalisation can tell: whether
      it is truthy and its `toString()`. */
  datatype RawBalance = RawBalance(truthy: bool, text: string)

  /** `_balance ? BigInt(_balance.toString()) : BigInt(0)`, with 0 when `BigInt` throws;
      a `null` entry (a call that threw) is falsy. */
  function NormalizeBalance(b: Option<RawBalance>): (v: int)
    ensures b.None? || !b.value.truthy ==> v == 0
    ensures b.Some? && b.value.truthy && StringToBigInt(b.value.text).None? ==> v == 0
    ensures b.Some? && b.value.truthy && StringToBigInt(b.value.text).Some? ==> v == StringToBigInt(b.value.text).value
  {
    match b
    case None => 0
    case Some(raw) =>
      if !raw.truthy then 0
      else StringToBigInt(raw.text).GetOr(0)
  }

  /** One user's row: the normalised balances, or `erc20Count` zeros when the batch gave
      `undefined`. */
  function NormalizeRow(row: Option<seq<Option<RawBalance>>>, erc20Count: nat): (r: seq<int>)
    ensures row.None? ==> r == seq(erc20Count, _ => 0)
    ensures row.Some? ==> |r| == |row.value| && forall j :: 0 <= j < |r| ==> r[j] == NormalizeBalance(row.value[j])
  {
    match row
    case None => seq(erc20Count, _ => 0)
    case Some(vs) => seq(|vs|, j requires 0 <= j < |vs| => NormalizeBalance(vs[j]))
  }

  /** The balance batch of user `u`: `balanceOf(user)` on every ERC-20 contract. */
  function UserBatch(users: seq<string>, erc20Addresses: seq<string>, u: nat, net: nat -> Network<seq<string>, RawBalance>)
    : Option<seq<Option<RawBalance>>>
    requires u < |users|
  {
    BatchFrom(OneFunctionCalls(erc20Addresses, "balanceOf", [users[u]]), net(u), _ => false, 0)
  }

  /** The matrix `getAddressesBalances` returns. */
  function BalancesMatrix(users: seq<string>, erc20Addresses: seq<string>, providerCount: nat, abiFound: bool,
                          net: nat -> Network<seq<string>, RawBalance>): seq<seq<int>>
  {
    if |users| == 0 || |erc20Addresses| == 0 || providerCount == 0 || !abiFound then []
    else seq(|users|, u requires 0 <= u < |users| => NormalizeRow(UserBatch(users, erc20Addresses, u, net), |erc20Addresses|))
  }

  /** `getAddressesBalances(users, erc20Addresses, providers)`: start one
      `batchCallOneFunction` per user, await them all, then normalise each row. When
      the `balanceOf` ABI is missing (`abiFound` false) the thrown error is caught and
      `[]` is returned. */
  method GetAddressesBalances(users: seq<string>, erc20Addresses: seq<string>, providerCount: nat, abiFound: bool,
                              net: nat -> Network<seq<string>, RawBalance>)
    returns (balances: seq<seq<int>>)
    ensures balances == BalancesMatrix(users, erc20Addresses, providerCount, abiFound, net)
  {
    if |users| == 0 || |erc20Addresses| == 0 || providerCount == 0 || !abiFound {
      return [];
    }
    var rows: seq<Option<seq<Option<RawBalance>>>> := [];
    var u := 0;
    while u < |users|
      invariant 0 <= u <= |users|
      invariant |rows| == u
      invariant forall k :: 0 <= k < u ==> rows[k] == UserBatch(users, erc20Addresses, k, net)
    {
      var row := BatchCallOneFunction(erc20Addresses, "balanceOf", [users[u]], net(u));
      rows := rows + [row];
      u := u + 1;
    }
    balances := seq(|rows|, k requires 0 <= k < |rows| => NormalizeRow(rows[k], |erc20Addresses|));
  }

  /** The matrix is empty when any input list is empty, there is no provider or the
      ABI is missing; otherwise it has one row per user and one entry per ERC-20
      contract, the normalised balances where the batch was fulfilled and zeros where
      it failed. */
  lemma BalancesMatrixShape(users: seq<string>, erc20Addresses: seq<string>, providerCount: nat, abiFound: bool,
                            net: nat -> Network<seq<string>, RawBalance>)
    ensures var m := BalancesMatrix(users, erc20Addresses, providerCount, abiFound, net);
            && (|users| == 0 || |erc20Addresses| == 0 || providerCount == 0 || !abiFound ==> m == [])
            && (|users| > 0 && |erc20Addresses| > 0 && providerCount > 0 && abiFound ==> |m| == |users|)
            && (forall u :: 0 <= u < |m| ==> |m[u]| == |erc20Addresses|)
            && (forall u :: 0 <= u < |m| && UserBatch(users, erc20Addresses, u, net).None? ==>
                  forall j :: 0 <= j < |m[u]| ==> m[u][j] == 0)
            && (forall u :: 0 <= u < |m| && UserBatch(users, erc20Addresses, u, net).Some? ==>
                  forall j :: 0 <= j < |m[u]| ==>
                    m[u][j] == NormalizeBalance(UserBatch(users, erc20Addresses, u, net).value[j]))
  {
    var m := BalancesMatrix(users, erc20Addresses, providerCount, abiFound, net);
    forall u | 0 <= u < |m| ensures |m[u]| == |erc20Addresses| {
      var calls := OneFunctionCalls(erc20Addresses, "balanceOf", [users[u]]);
      if UserBatch(users, erc20Addresses, u, net).Some? {
        BatchResultShape(calls, net(u), _ => false);
      }
    }
  }

  /** A balance that went through `toString()` comes back unchanged. */
  lemma NormalizeKeepsBalance(n: int)
    ensures NormalizeBalance(Some(RawBalance(true, BigIntToString(n)))) == n
  {
    BigIntStringRoundTrip(n);
  }

  // ---------------------------------------------------------------------------
  // getAddressesLpBalances

  /** `getAddressesLpBalances(contractAddress, addressList, providers)`: it looks up the
      HoneySwap pairs of the token and their balances but discards them, returning the
      constant 0 on every path. */
  method GetAddressesLpBalances(contractAddress: string, addressList: seq<string>, providerCount: nat, abiFound: bool,
                                getPair: GetPairOracle, net: nat -> Network<seq<string>, RawBalance>)
    returns (totalAmount: int)
    ensures totalAmount == 0
  {
    totalAmount := 0;
    if |addressList| == 0 || providerCount == 0 {
      return;
    }
    var lpAddresses := GetLpAddresses(contractAddress, LP_TYPE_UNIV2, CHAIN_ID_GNOSIS_XDAI, getPair);
    var addressesBalances := GetAddressesBalances(addressList, lpAddresses, providerCount, abiFound, net);
  }
}
