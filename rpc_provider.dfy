/** Provider selection and receipt polling (src/repositories/RpcProvider.ts): the
    concurrency probe `testRpcThresholds`, the selector `getWorkingRpc`, the poller
    `getTransactionReceipt` and `getChainId`.

    Every network effect is an oracle. For the probe of a URL, `ProbeNet` says what each
    element call of batch `index` at concurrency `level` does, and `ProbeThrows` whether
    that batch's error handler throws; `connects(url)` says whether `getNetwork` and
    `getBlockNumber` both succeed; a receipt query is answered by `query(provider, n)` on
    the `n`-th query. Waits have no effect on results and are left out. */
module RpcProvider {
  import opened Wrappers
  import opened JsText
  import opened Chains
  import opened RpcCatalog
  import opened BatchExecutor

  /** ethers' `ZeroAddress`. */
  const ZERO_ADDRESS: string := "0x0000000000000000000000000000000000000000"

  /** The arguments of one `balanceOf` call of the probe. */
  type BalanceArgs = seq<string>

  type ProbeNet<T> = (nat, nat) -> Network<BalanceArgs, T>
  type ProbeThrows = (nat, nat) -> (nat -> bool)

  // ---------------------------------------------------------------------------
  // testRpcThresholds

  /** `Array(requestsBatchSize).fill([ZeroAddress])` */
  function ProbeArgs(batchSize: nat): (args: seq<BalanceArgs>)
    ensures |args| == batchSize
    ensures forall i :: 0 <= i < batchSize ==> args[i] == [ZERO_ADDRESS]
  {
    seq(batchSize, _ => [ZERO_ADDRESS])
  }

  /** The work list of one probe batch: `balanceOf(ZeroAddress)` on the REG contract,
      `batchSize` times. The probe always targets REG, whatever ERC-20 address it was
      given. */
  function ProbeCalls(batchSize: nat): seq<Call<BalanceArgs>> {
    MultipleParamsCalls(REG_ADDRESS, "balanceOf", ProbeArgs(batchSize))
  }

  /** What batch `index` of concurrency `level` resolves to. */
  function ProbeBatch<T>(batchSize: nat, level: nat, index: nat, probe: ProbeNet<T>, probeThrows: ProbeThrows)
    : Option<seq<Option<T>>>
  {
    BatchFrom(ProbeCalls(batchSize), probe(level, index), probeThrows(level, index), 0)
  }

  /** A level passes when none of its `level` concurrent batches resolved to
      `undefined`; `null` entries inside a returned array are not looked at. */
  predicate LevelPasses<T>(batchSize: nat, level: nat, probe: ProbeNet<T>, probeThrows: ProbeThrows) {
    forall index :: 0 <= index < level ==> ProbeBatch(batchSize, level, index, probe, probeThrows).Some?
  }

  /** The parameter checks of `testRpcThresholds`; any failure makes it return 0. */
  predicate ValidProbeParameters(providerDefined: bool, erc20Address: string, min: int, max: int, batchSize: int, delayMs: int) {
    providerDefined && erc20Address != "" && min >= 1 && max >= 1 && batchSize >= 1 && delayMs >= 1 && min <= max
  }

  /** The threshold search from `level` down to `min`. */
  function ThresholdFrom<T>(batchSize: nat, level: int, min: int, probe: ProbeNet<T>, probeThrows: ProbeThrows): int
    requires min >= 1
    decreases level - min + 1
  {
    if level < min then 0
    else if LevelPasses(batchSize, level, probe, probeThrows) then level
    else ThresholdFrom(batchSize, level - 1, min, probe, probeThrows)
  }

  /** What `testRpcThresholds` returns. */
  function Threshold<T>(providerDefined: bool, erc20Address: string, min: int, max: int, batchSize: int, delayMs: int,
                        probe: ProbeNet<T>, probeThrows: ProbeThrows): int
  {
    if ValidProbeParameters(providerDefined, erc20Address, min, max, batchSize, delayMs)
    then ThresholdFrom(batchSize, max, min, probe, probeThrows)
    else 0
  }

  /** One step of the downward scan: a passing level is the answer, a failing one
      hands the search to the level below. */
  lemma ThresholdFromStep<T>(batchSize: nat, level: int, min: int, probe: ProbeNet<T>, probeThrows: ProbeThrows)
    requires 1 <= min <= level
    ensures LevelPasses(batchSize, level, probe, probeThrows) ==> ThresholdFrom(batchSize, level, min, probe, probeThrows) == level
    ensures !LevelPasses(batchSize, level, probe, probeThrows) ==>
              ThresholdFrom(batchSize, level, min, probe, probeThrows) == ThresholdFrom(batchSize, level - 1, min, probe, probeThrows)
  {
  }

  /** The search returns the highest passing level of `[min, level]`, or 0 when none
      passes. */
  lemma {:induction false} ThresholdFromSpec<T>(batchSize: nat, level: int, min: int, probe: ProbeNet<T>, probeThrows: ProbeThrows)
    requires min >= 1
    ensures var r := ThresholdFrom(batchSize, level, min, probe, probeThrows);
            && (r == 0 || (min <= r <= level && LevelPasses(batchSize, r, probe, probeThrows)))
            && (forall l :: r < l <= level && min <= l ==> !LevelPasses(batchSize, l, probe, probeThrows))
    decreases level - min + 1
  {
    if level >= min && !LevelPasses(batchSize, level, probe, probeThrows) {
      ThresholdFromSpec(batchSize, level - 1, min, probe, probeThrows);
    }
  }

  /** `testRpcThresholds` returns 0 when a parameter check fails; otherwise the first
      level, scanning from `max` down to `min`, at which every batch returned an array,
      and 0 when no level does. */
  lemma ThresholdSpec<T>(providerDefined: bool, erc20Address: string, min: int, max: int, batchSize: int, delayMs: int,
                         probe: ProbeNet<T>, probeThrows: ProbeThrows)
    ensures var r := Threshold(providerDefined, erc20Address, min, max, batchSize, delayMs, probe, probeThrows);
            && (!ValidProbeParameters(providerDefined, erc20Address, min, max, batchSize, delayMs) ==> r == 0)
            && (ValidProbeParameters(providerDefined, erc20Address, min, max, batchSize, delayMs) ==>
                  && (r == 0 || (min <= r <= max && LevelPasses(batchSize, r, probe, probeThrows)))
                  && (forall l :: r < l <= max && min <= l ==> !LevelPasses(batchSize, l, probe, probeThrows)))
  {
    if ValidProbeParameters(providerDefined, erc20Address, min, max, batchSize, delayMs) {
      ThresholdFromSpec(batchSize, max, min, probe, probeThrows);
    }
  }

  /** The inner loop of `testRpcThresholds`: start the `level` probe batches of one
      level and collect what each resolved to, in launch order. */
  method LaunchLevel<T>(batchSize: nat, level: nat, args: seq<BalanceArgs>, probe: ProbeNet<T>, probeThrows: ProbeThrows)
    returns (balances: seq<Option<seq<Option<T>>>>)
    requires args == ProbeArgs(batchSize)
    ensures |balances| == level
    ensures forall k :: 0 <= k < level ==> balances[k] == ProbeBatch(batchSize, level, k, probe, probeThrows)
  {
    balances := [];
    var index := 0;
    while index < level
      invariant 0 <= index <= level
      invariant |balances| == index
      invariant forall k :: 0 <= k < index ==> balances[k] == ProbeBatch(batchSize, level, k, probe, probeThrows)
    {
      var balance := BatchCallOneContractOneFunctionMultipleParams(REG_ADDRESS, "balanceOf", args,
                                                                   probe(level, index), probeThrows(level, index));
      balances := balances + [balance];
      index := index + 1;
    }
  }

  /** `testRpcThresholds(provider, erc20ContractAddress, min, max, batchSize, delay)`:
      validate, then for each level from `max` down to `min` start `level` probe batches,
      await them all and stop at the first level where none resolved to `undefined`. */
  method TestRpcThresholds<T>(providerDefined: bool, erc20Address: string, min: int, max: int, batchSize: int, delayMs: int,
                              probe: ProbeNet<T>, probeThrows: ProbeThrows)
    returns (threshold: int)
    ensures threshold == Threshold(providerDefined, erc20Address, min, max, batchSize, delayMs, probe, probeThrows)
  {
    threshold := 0;
    if !ValidProbeParameters(providerDefined, erc20Address, min, max, batchSize, delayMs) {
      // one of the checks threw; the catch logs and 0 is returned
      return;
    }
    var args := ProbeArgs(batchSize);
    var level := max;
    while level >= min
      invariant min - 1 <= level <= max
      invariant ThresholdFrom(batchSize, level, min, probe, probeThrows) == ThresholdFrom(batchSize, max, min, probe, probeThrows)
      decreases level
    {
      var balances := LaunchLevel(batchSize, level, args, probe, probeThrows);
      var containsNull := exists k :: 0 <= k < |balances| && balances[k].None?;
      assert !containsNull <==> LevelPasses(batchSize, level, probe, probeThrows);
      ThresholdFromStep(batchSize, level, min, probe, probeThrows);
      if !containsNull {
        threshold := level;
        return;
      }
      level := level - 1;
    }
  }

  // ---------------------------------------------------------------------------
  // getWorkingRpc

  datatype JsonRpcProvider = JsonRpcProvider(url: string)

  datatype RpcError =
    | UnsupportedChain(chainId: int)
    | AllRpcUrlsFailed(count: nat, chainId: int)

  /** A URL is usable when it connects and the fixed probe (min = max = 5, batches of
      5, 150 ms apart) finds a threshold of at least 1. */
  predicate Works<T>(url: string, connects: string -> bool, probe: string -> ProbeNet<T>, probeThrows: string -> ProbeThrows) {
    connects(url) && Threshold(true, REG_ADDRESS, 5, 5, 5, 150, probe(url), probeThrows(url)) >= 1
  }

  /** The fixed probe passes exactly when five concurrent batches of five calls all
      return an array. */
  lemma WorksIffFiveBatchesSucceed<T>(url: string, connects: string -> bool, probe: string -> ProbeNet<T>, probeThrows: string -> ProbeThrows)
    ensures Works(url, connects, probe, probeThrows) <==> connects(url) && LevelPasses(5, 5, probe(url), probeThrows(url))
  {
    ThresholdSpec(true, REG_ADDRESS, 5, 5, 5, 150, probe(url), probeThrows(url));
  }

  /** The index of the first usable URL, or `|urls|` when there is none. */
  function FirstWorking<T>(urls: seq<string>, connects: string -> bool, probe: string -> ProbeNet<T>, probeThrows: string -> ProbeThrows)
    : (k: nat)
    ensures k <= |urls|
    ensures k < |urls| ==> Works(urls[k], connects, probe, probeThrows)
    ensures forall j :: 0 <= j < k ==> !Works(urls[j], connects, probe, probeThrows)
    decreases |urls|
  {
    if urls == [] then 0
    else if Works(urls[0], connects, probe, probeThrows) then 0
    else 1 + FirstWorking(urls[1..], connects, probe, probeThrows)
  }

  /** The loop of `getWorkingRpc`: try each URL in order (connect, then the fixed
      probe) and stop at the first usable one; the result is also the number of URLs
      that failed before it. */
  method ScanUrls<T>(urls: seq<string>, connects: string -> bool,
                     probe: string -> ProbeNet<T>, probeThrows: string -> ProbeThrows)
    returns (failedCount: nat)
    ensures failedCount == FirstWorking(urls, connects, probe, probeThrows)
  {
    failedCount := 0;
    while failedCount < |urls|
      invariant failedCount <= |urls|
      invariant forall j :: 0 <= j < failedCount ==> !Works(urls[j], connects, probe, probeThrows)
    {
      var url := urls[failedCount];
      var rpcConnectOk := connects(url);
      if rpcConnectOk {
        var rpcThresholdValue := TestRpcThresholds(true, REG_ADDRESS, 5, 5, 5, 150, probe(url), probeThrows(url));
        if rpcThresholdValue >= 1 {
          FirstWorkingAt(urls, failedCount, connects, probe, probeThrows);
          return;
        }
      }
      // the catch counts the failure and moves on to the next URL
      failedCount := failedCount + 1;
    }
    FirstWorkingAt(urls, |urls|, connects, probe, probeThrows);
  }

  /** `getWorkingRpc(chainId)`: the catalog's first usable URL, in catalog order, with
      the number of URLs that failed before it; an unsupported chain throws from the
      catalog, and when every URL fails, including when there is none, it throws. */
  method GetWorkingRpc<T>(chainId: int, env: map<string, string>, connects: string -> bool,
                          probe: string -> ProbeNet<T>, probeThrows: string -> ProbeThrows)
    returns (r: Result<JsonRpcProvider, RpcError>, failedCount: nat)
    ensures !IsSupportedChain(chainId) ==> r == Err(UnsupportedChain(chainId))
    ensures IsSupportedChain(chainId) ==>
              var urls := GetConfigRpcUrls(chainId, env).value;
              var k := FirstWorking(urls, connects, probe, probeThrows);
              && failedCount == k
              && r == if k < |urls| then Ok(JsonRpcProvider(urls[k])) else Err(AllRpcUrlsFailed(|urls|, chainId))
  {
    failedCount := 0;
    var catalog := GetConfigRpcUrls(chainId, env);
    if catalog.Err? {
      return Err(UnsupportedChain(chainId)), failedCount;
    }
    var urls := catalog.value;
    failedCount := ScanUrls(urls, connects, probe, probeThrows);
    if failedCount < |urls| {
      r := Ok(JsonRpcProvider(urls[failedCount]));
    } else {
      r := Err(AllRpcUrlsFailed(|urls|, chainId));
    }
  }

  /** `FirstWorking` is `i` when every URL before `i` fails and `urls[i]` works (or `i`
      is the end of the list). */
  lemma FirstWorkingAt<T>(urls: seq<string>, i: nat, connects: string -> bool, probe: string -> ProbeNet<T>, probeThrows: string -> ProbeThrows)
    requires i <= |urls|
    requires forall j :: 0 <= j < i ==> !Works(urls[j], connects, probe, probeThrows)
    requires i < |urls| ==> Works(urls[i], connects, probe, probeThrows)
    ensures FirstWorking(urls, connects, probe, probeThrows) == i
  {
  }

  /** The selected provider is a catalog URL: configured entries first, then the
      built-in defaults, never blank. */
  lemma SelectedUrlIsACandidate<T>(chainId: int, env: map<string, string>, connects: string -> bool,
                                   probe: string -> ProbeNet<T>, probeThrows: string -> ProbeThrows)
    requires IsSupportedChain(chainId)
    ensures var urls := GetConfigRpcUrls(chainId, env).value;
            var k := FirstWorking(urls, connects, probe, probeThrows);
            k < |urls| ==> urls[k] in CandidateUrls(ChainConfigFor(chainId).value, env) && Trim(urls[k]) != ""
  {
    CatalogContents(chainId, env);
  }

  // ---------------------------------------------------------------------------
  // getTransactionReceipt

  /** One answer of `provider.getTransactionReceipt(hash)`. */
  datatype ReceiptAnswer<R> = Receipt(receipt: R) | NoReceipt | QueryFails

  /** The providers `initializeProviders` resolves to. */
  datatype Providers = Providers(gnosis: JsonRpcProvider, ethereum: JsonRpcProvider)

  /** `chainId === 1 ? EthereumRpcProvider : GnosisRpcProvider` */
  function ReceiptProvider(providers: Providers, chainId: int): (p: JsonRpcProvider)
    ensures chainId == CHAIN_ID_ETHEREUM ==> p == providers.ethereum
    ensures chainId != CHAIN_ID_ETHEREUM ==> p == providers.gnosis
  {
    if chainId == 1 then providers.ethereum else providers.gnosis
  }

  const MAX_RECEIPT_QUERIES: nat := 3

  /** The polling loop once `n` queries answered `null`: the next query's receipt, or
      `null` after the third `null`; a failing query rejects. */
  function ReceiptFrom<R>(provider: JsonRpcProvider, query: (JsonRpcProvider, nat) -> ReceiptAnswer<R>, n: nat)
    : Result<Option<R>, string>
    requires n < MAX_RECEIPT_QUERIES
    decreases MAX_RECEIPT_QUERIES - n
  {
    match query(provider, n)
    case QueryFails => Err("getTransactionReceipt failed")
    case Receipt(rc) => Ok(Some(rc))
    case NoReceipt => if n + 1 < MAX_RECEIPT_QUERIES then ReceiptFrom(provider, query, n + 1) else Ok(None)
  }

  /** `getTransactionReceipt(transactionId, chainId)`, once the providers are known:
      ask the chain's provider until it returns a receipt, at most three times. */
  method GetTransactionReceipt<R>(providers: Providers, chainId: int, query: (JsonRpcProvider, nat) -> ReceiptAnswer<R>)
    returns (r: Result<Option<R>, string>, queries: nat)
    ensures r == ReceiptFrom(ReceiptProvider(providers, chainId), query, 0)
    ensures 1 <= queries <= MAX_RECEIPT_QUERIES
  {
    var provider := if chainId == 1 then providers.ethereum else providers.gnosis;
    var attempt := 0;
    queries := 0;
    var receipt: Option<R> := None;
    while true
      invariant attempt < MAX_RECEIPT_QUERIES && queries == attempt
      invariant ReceiptFrom(provider, query, attempt) == ReceiptFrom(provider, query, 0)
      decreases MAX_RECEIPT_QUERIES - attempt
    {
      var answer := query(provider, attempt);
      queries := queries + 1;
      match answer
      case QueryFails =>
        return Err("getTransactionReceipt failed"), queries;
      case Receipt(rc) =>
        return Ok(Some(rc)), queries;
      case NoReceipt =>
        attempt := attempt + 1;
        if attempt >= MAX_RECEIPT_QUERIES {
          return Ok(None), queries;
        }
    }
  }

  /** The poller returns the first receipt among at most three queries, with `null`
      only after three `null` answers, each query answering for the chain's own
      provider. */
  lemma ReceiptSpec<R>(provider: JsonRpcProvider, query: (JsonRpcProvider, nat) -> ReceiptAnswer<R>)
    ensures var r := ReceiptFrom(provider, query, 0);
            && (r == Ok(None) <==> forall n :: 0 <= n < MAX_RECEIPT_QUERIES ==> query(provider, n) == NoReceipt)
            && (forall rc :: r == Ok(Some(rc)) <==>
                  exists n :: 0 <= n < MAX_RECEIPT_QUERIES && query(provider, n) == Receipt(rc) &&
                              forall m :: 0 <= m < n ==> query(provider, m) == NoReceipt)
  {
    var r := ReceiptFrom(provider, query, 0);
    forall rc
      ensures r == Ok(Some(rc)) <==>
              exists n :: 0 <= n < MAX_RECEIPT_QUERIES && query(provider, n) == Receipt(rc) &&
                          forall m :: 0 <= m < n ==> query(provider, m) == NoReceipt
    {
      if r == Ok(Some(rc)) {
        if query(provider, 0) == Receipt(rc) {
        } else if query(provider, 1) == Receipt(rc) {
        } else {
          assert query(provider, 2) == Receipt(rc);
        }
      }
    }
  }

  // ---------------------------------------------------------------------------
  // getChainId

  /** What `provider?._network?.chainId` can see: the provider, if any, and its cached
      network's chain id, if detected. */
  datatype ProviderNetwork = ProviderNetwork(cachedChainId: Option<int>)

  /** `getChainId(provider)`: the cached chain id when there is one and it is not 0
      (0n is falsy), otherwise `undefined`. */
  function GetChainId(provider: Option<ProviderNetwork>): (r: Option<int>)
    ensures r.Some? <==> provider.Some? && provider.value.cachedChainId.Some? && provider.value.cachedChainId.value != 0
    ensures r.Some? ==> r.value == provider.value.cachedChainId.value && r.value != 0
  {
    match provider
    case None => None
    case Some(p) =>
      match p.cachedChainId
      case None => None
      case Some(c) => if c != 0 then Some(c) else None
  }
}
