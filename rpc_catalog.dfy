/** Endpoint catalog: the candidate RPC URLs of one network (`getConfigRpcUrls` and its
    inner `getEnvRpcUrls` in src/repositories/RpcProvider.ts). The process environment
    is a parameter, a map from variable name to value. */
module RpcCatalog {
  import opened Wrappers
  import opened JsText
  import opened Chains

  const DEFAULT_GNOSIS_RPC_URLS: seq<string> := [
    "https://rpc.gnosischain.com",
    "https://rpc.gnosis.gateway.fm",
    "https://rpc.ap-southeast-1.gateway.fm/v4/gnosis/non-archival/mainnet",
    "https://gnosis-rpc.publicnode.com",
    "https://gnosis.oat.farm",
    "https://0xrpc.io/gno"
  ]

  const DEFAULT_ETHEREUM_RPC_URLS: seq<string> := [
    "https://rpc.eth.gateway.fm",
    "https://ethereum-rpc.publicnode.com",
    "https://eth-mainnet.public.blastapi.io",
    "https://ethereum.blockpi.network/v1/rpc/public",
    "https://rpc.mevblocker.io/fast",
    "https://rpc.mevblocker.io",
    "https://0xrpc.io/eth"
  ]

  datatype CatalogError = UnsupportedChainId(chainId: int)

  /** The environment variable that overrides a network's URLs, and its built-in URLs. */
  datatype ChainConfig = ChainConfig(envVarName: string, defaultUrls: seq<string>)

  predicate IsSupportedChain(chainId: int) {
    chainId == CHAIN_ID_ETHEREUM || chainId == CHAIN_ID_GNOSIS_XDAI || chainId == CHAIN_ID_POLYGON
  }

  /** The `switch (chainId)` of `getEnvRpcUrls`. */
  function ChainConfigFor(chainId: int): (r: Result<ChainConfig, CatalogError>)
    ensures r.Err? <==> !IsSupportedChain(chainId)
    ensures r.Err? ==> r.error == UnsupportedChainId(chainId)
    ensures chainId == CHAIN_ID_POLYGON ==> r == Ok(ChainConfig("", []))
  {
    if chainId == CHAIN_ID_ETHEREUM then Ok(ChainConfig("RPC_URLS_ETH_MAINNET", DEFAULT_ETHEREUM_RPC_URLS))
    else if chainId == CHAIN_ID_GNOSIS_XDAI then Ok(ChainConfig("RPC_URLS_GNOSIS_MAINNET", DEFAULT_GNOSIS_RPC_URLS))
    else if chainId == CHAIN_ID_POLYGON then Ok(ChainConfig("", []))
    else Err(UnsupportedChainId(chainId))
  }

  /** `(process.env[name] ?? '').split(',')` */
  function EnvUrls(env: map<string, string>, name: string): seq<string> {
    Split(if name in env then env[name] else "", ',')
  }

  // ---------------------------------------------------------------------------
  // `Array.from(new Set(xs))`: a Set iterates in insertion order and ignores repeated
  // insertions, so each value keeps the place of its first occurrence.

  function Dedup<T(==)>(xs: seq<T>): seq<T>
    decreases |xs|
  {
    if xs == [] then []
    else
      var init := xs[..|xs| - 1];
      var last := xs[|xs| - 1];
      if last in init then Dedup(init) else Dedup(init) + [last]
  }

  /** The position of the first occurrence of `x` in `xs`. */
  function FirstIndex<T(==)>(xs: seq<T>, x: T): (k: nat)
    requires x in xs
    ensures k < |xs| && xs[k] == x && x !in xs[..k]
  {
    if xs[0] == x then 0 else 1 + FirstIndex(xs[1..], x)
  }

  lemma FirstIndexUnique<T>(xs: seq<T>, x: T, k: nat)
    requires k < |xs| && xs[k] == x && x !in xs[..k]
    ensures FirstIndex(xs, x) == k
  {
    var f := FirstIndex(xs, x);
  }

  lemma FirstIndexOfPrefix<T>(xs: seq<T>, ys: seq<T>, x: T)
    requires x in xs
    ensures FirstIndex(xs + ys, x) == FirstIndex(xs, x)
  {
    var k := FirstIndex(xs, x);
    assert (xs + ys)[..k] == xs[..k];
    FirstIndexUnique(xs + ys, x, k);
  }

  /** `r` lists elements of `all`, each strictly after the previous one in order of first
      occurrence in `all` (so in particular without repetition). */
  ghost predicate InFirstOccurrenceOrder<T>(r: seq<T>, all: seq<T>) {
    && (forall i :: 0 <= i < |r| ==> r[i] in all)
    && (forall i, j :: 0 <= i < j < |r| ==> FirstIndex(all, r[i]) < FirstIndex(all, r[j]))
  }

  predicate NoDuplicates<T(==)>(r: seq<T>) {
    forall i, j :: 0 <= i < j < |r| ==> r[i] != r[j]
  }

  lemma OrderedHasNoDuplicates<T>(r: seq<T>, all: seq<T>)
    requires InFirstOccurrenceOrder(r, all)
    ensures NoDuplicates(r)
  {
  }

  /** `Array.from(new Set(xs))` keeps exactly the values of `xs`, in first-occurrence
      order. */
  lemma {:induction false} DedupSpec<T>(xs: seq<T>)
    ensures forall x :: x in Dedup(xs) <==> x in xs
    ensures InFirstOccurrenceOrder(Dedup(xs), xs)
    decreases |xs|
  {
    if xs != [] {
      var init := xs[..|xs| - 1];
      var last := xs[|xs| - 1];
      assert xs == init + [last];
      DedupSpec(init);
      var d := Dedup(init);
      forall x | x in init ensures FirstIndex(xs, x) == FirstIndex(init, x) {
        FirstIndexOfPrefix(init, [last], x);
      }
      if last !in init {
        FirstIndexUnique(xs, last, |init|);
        var r := d + [last];
        assert forall i :: 0 <= i < |d| ==> r[i] == d[i];
      }
    }
  }

  /** `.filter((url) => url.trim() !== '')` */
  function KeepNonBlank(xs: seq<string>): (r: seq<string>)
    decreases |xs|
  {
    if xs == [] then []
    else if Trim(xs[0]) != "" then [xs[0]] + KeepNonBlank(xs[1..])
    else KeepNonBlank(xs[1..])
  }

  lemma {:induction false} KeepNonBlankSpec(xs: seq<string>, all: seq<string>)
    requires InFirstOccurrenceOrder(xs, all)
    ensures forall x :: x in KeepNonBlank(xs) <==> x in xs && !IsBlank(x)
    ensures InFirstOccurrenceOrder(KeepNonBlank(xs), all)
    decreases |xs|
  {
    if xs != [] {
      KeepNonBlankSpec(xs[1..], all);
      TrimEmptyIffBlank(xs[0]);
      forall x | x in xs ensures Trim(x) == "" <==> IsBlank(x) { TrimEmptyIffBlank(x); }
      if Trim(xs[0]) != "" {
        OrderedCons(xs, KeepNonBlank(xs[1..]), all);
      }
    }
  }

  /** Putting the head of an ordered list in front of an ordered selection of its
      tail keeps the order. */
  lemma OrderedCons<T>(xs: seq<T>, t: seq<T>, all: seq<T>)
    requires xs != [] && InFirstOccurrenceOrder(xs, all) && InFirstOccurrenceOrder(t, all)
    requires forall y :: y in t ==> y in xs[1..]
    ensures InFirstOccurrenceOrder([xs[0]] + t, all)
  {
    var r := [xs[0]] + t;
    forall i, j | 0 <= i < j < |r| ensures FirstIndex(all, r[i]) < FirstIndex(all, r[j]) {
      if i > 0 {
        assert r[i] == t[i - 1] && r[j] == t[j - 1];
      } else {
        assert r[j] == t[j - 1];
        assert r[j] in xs[1..];
        var m :| 0 <= m < |xs[1..]| && xs[1..][m] == r[j];
        assert xs[m + 1] == r[j];
      }
    }
  }

  /** The candidate list before de-duplication: the environment's entries, then the
      built-in defaults. */
  function CandidateUrls(cfg: ChainConfig, env: map<string, string>): seq<string> {
    EnvUrls(env, cfg.envVarName) + cfg.defaultUrls
  }

  /** The pipeline of `getEnvRpcUrls` once the network's configuration is known. */
  function UrlsFor(cfg: ChainConfig, env: map<string, string>): seq<string> {
    KeepNonBlank(Dedup(CandidateUrls(cfg, env)))
  }

  /** `getConfigRpcUrls(chainId)` */
  function GetConfigRpcUrls(chainId: int, env: map<string, string>): (r: Result<seq<string>, CatalogError>)
    ensures r.Err? <==> !IsSupportedChain(chainId)
    ensures r.Err? ==> r.error == UnsupportedChainId(chainId)
    ensures r.Ok? ==> r.value == UrlsFor(ChainConfigFor(chainId).value, env)
  {
    var cfg :- ChainConfigFor(chainId);
    Ok(UrlsFor(cfg, env))
  }

  /** What the pipeline returns: exactly the non-blank candidate URLs, untrimmed,
      without duplicates, in order of first occurrence. */
  lemma UrlsForContents(cfg: ChainConfig, env: map<string, string>)
    ensures var all := CandidateUrls(cfg, env);
            var r := UrlsFor(cfg, env);
            && (forall u :: u in r <==> u in all && !IsBlank(u))
            && (forall i :: 0 <= i < |r| ==> Trim(r[i]) != "")
            && NoDuplicates(r)
            && InFirstOccurrenceOrder(r, all)
  {
    var all := CandidateUrls(cfg, env);
    DedupSpec(all);
    KeepNonBlankSpec(Dedup(all), all);
    var r := UrlsFor(cfg, env);
    OrderedHasNoDuplicates(r, all);
    forall i | 0 <= i < |r| ensures Trim(r[i]) != "" {
      TrimEmptyIffBlank(r[i]);
    }
  }

  /** What the catalog returns for a supported network: the network's non-blank
      candidate URLs, untrimmed, without duplicates, in order of first occurrence. */
  lemma CatalogContents(chainId: int, env: map<string, string>)
    requires IsSupportedChain(chainId)
    ensures var all := CandidateUrls(ChainConfigFor(chainId).value, env);
            var r := GetConfigRpcUrls(chainId, env);
            && r.Ok?
            && (forall u :: u in r.value <==> u in all && !IsBlank(u))
            && (forall i :: 0 <= i < |r.value| ==> Trim(r.value[i]) != "")
            && NoDuplicates(r.value)
            && InFirstOccurrenceOrder(r.value, all)
  {
    UrlsForContents(ChainConfigFor(chainId).value, env);
  }

  /** Configured URLs come before built-in ones: a URL that the environment lists is
      placed before every URL that only the defaults list. */
  lemma ConfiguredBeforeDefaults(cfg: ChainConfig, env: map<string, string>, i: nat, j: nat)
    requires i < |UrlsFor(cfg, env)| && j < |UrlsFor(cfg, env)|
    requires UrlsFor(cfg, env)[i] in EnvUrls(env, cfg.envVarName)
    requires UrlsFor(cfg, env)[j] !in EnvUrls(env, cfg.envVarName)
    ensures i < j
  {
    var e := EnvUrls(env, cfg.envVarName);
    var all := CandidateUrls(cfg, env);
    var r := UrlsFor(cfg, env);
    UrlsForContents(cfg, env);
    FirstIndexOfPrefix(e, cfg.defaultUrls, r[i]);
    var fj := FirstIndex(all, r[j]);
    assert fj >= |e|;
  }

  /** Polygon has no defaults and, with nothing under the empty variable name, no URLs. */
  lemma PolygonCatalogIsEmpty(env: map<string, string>)
    requires "" !in env
    ensures GetConfigRpcUrls(CHAIN_ID_POLYGON, env) == Ok([])
  {
    var cfg := ChainConfig("", []);
    assert EnvUrls(env, "") == [""];
    var all := CandidateUrls(cfg, env);
    assert all == [""];
    var none: seq<string> := [];
    assert all[..|all| - 1] == none && all[|all| - 1] == "";
    assert Dedup(none) == [];
    assert Dedup(all) == [""];
    assert Trim("") == "";
    var blank: seq<string> := [""];
    assert blank[1..] == none;
    assert KeepNonBlank(blank) == KeepNonBlank(none) == [];
    assert UrlsFor(cfg, env) == KeepNonBlank(blank);
  }
}
