/** RealToken lookup (src/utils/realtoken/findRealToken.ts): the first token of a list
    whose contract address on the chosen blockchain matches, ignoring case.

    The chain-to-blockchain map of the source is an object literal whose keys are the
    NAMES `CHAIN_ID__ETHEREUM` and `CHAIN_ID__GNOSIS_XDAI`, while it is indexed by a
    numeric chain id; `FindRealTokenAsWritten` keeps that lookup and never finds
    anything, `FindRealToken` uses the intended numeric keys. */
module RealTokenLookup {
  import opened Wrappers
  import opened JsText
  import opened Chains

  datatype Blockchain = Ethereum | XDai

  /** `item.blockchainAddresses[chain]?.contract` for the two blockchains. */
  datatype RealToken = RealToken(ethereumContract: Option<string>, xDaiContract: Option<string>)

  function ContractOn(item: RealToken, chain: Blockchain): Option<string> {
    match chain
    case Ethereum => item.ethereumContract
    case XDai => item.xDaiContract
  }

  /** The `find` predicate: the item has a non-empty contract on the blockchain and it
      equals `contract` once both are lower-cased. With no blockchain, the item's entry
      is `undefined` and nothing matches. */
  predicate Matches(item: RealToken, chain: Option<Blockchain>, contract: string) {
    chain.Some? &&
    var c := ContractOn(item, chain.value);
    c.Some? && c.value != "" && Lower(c.value) == Lower(contract)
  }

  /** The index of the first matching item, or `|items|`. */
  function FirstMatch(items: seq<RealToken>, chain: Option<Blockchain>, contract: string): (k: nat)
    ensures k <= |items|
    ensures k < |items| ==> Matches(items[k], chain, contract)
    ensures forall j :: 0 <= j < k ==> !Matches(items[j], chain, contract)
    decreases |items|
  {
    if items == [] then 0
    else if Matches(items[0], chain, contract) then 0
    else 1 + FirstMatch(items[1..], chain, contract)
  }

  /** `realtokenList.find(...)` */
  function Find(items: seq<RealToken>, chain: Option<Blockchain>, contract: string): Option<RealToken> {
    var k := FirstMatch(items, chain, contract);
    if k < |items| then Some(items[k]) else None
  }

  /** `find` returns the first matching item, and `undefined` exactly when no item
      matches; an item without a contract on the blockchain, or with an empty one,
      never matches. */
  lemma FindSpec(items: seq<RealToken>, chain: Option<Blockchain>, contract: string)
    ensures var r := Find(items, chain, contract);
            && (r.None? <==> forall j :: 0 <= j < |items| ==> !Matches(items[j], chain, contract))
            && (r.Some? ==> exists k :: 0 <= k < |items| && r.value == items[k] && Matches(items[k], chain, contract) &&
                                       forall j :: 0 <= j < k ==> !Matches(items[j], chain, contract))
            && (forall j :: 0 <= j < |items| && chain.Some? && ContractOn(items[j], chain.value) in {None, Some("")} ==>
                  !Matches(items[j], chain, contract))
  {
    var k := FirstMatch(items, chain, contract);
    if k < |items| {
      assert Matches(items[k], chain, contract);
    }
  }

  /** The contract's case does not matter. */
  lemma FindIgnoresCase(items: seq<RealToken>, chain: Option<Blockchain>, contract: string)
    ensures Find(items, chain, Lower(contract)) == Find(items, chain, contract)
  {
    LowerIdempotent(contract);
    assert forall item :: Matches(item, chain, Lower(contract)) <==> Matches(item, chain, contract);
    FirstMatchSamePredicate(items, chain, Lower(contract), contract);
  }

  lemma {:induction false} FirstMatchSamePredicate(items: seq<RealToken>, chain: Option<Blockchain>, c1: string, c2: string)
    requires forall item :: Matches(item, chain, c1) <==> Matches(item, chain, c2)
    ensures FirstMatch(items, chain, c1) == FirstMatch(items, chain, c2)
    decreases |items|
  {
    if items != [] {
      FirstMatchSamePredicate(items[1..], chain, c1, c2);
    }
  }

  // ---------------------------------------------------------------------------
  // The key map as written

  /** Property lookup in `{ CHAIN_ID__ETHEREUM: 'ethereum', CHAIN_ID__GNOSIS_XDAI: 'xDai' }`. */
  function LookupKeyName(key: string): Option<Blockchain> {
    if key == "CHAIN_ID__ETHEREUM" then Some(Ethereum)
    else if key == "CHAIN_ID__GNOSIS_XDAI" then Some(XDai)
    else None
  }

  /** Indexing that object with the number `chainId` looks up its decimal string. */
  function ChainKeyAsWritten(chainId: int): Option<Blockchain> {
    LookupKeyName(BigIntToString(chainId))
  }

  /** No chain id finds a key: a number's decimal string starts with a digit or `-`,
      and both key names start with `C`. */
  lemma ChainKeyAsWrittenIsUndefined(chainId: int)
    ensures ChainKeyAsWritten(chainId) == None
  {
    var s := BigIntToString(chainId);
    assert s[0] == '-' || IsDecimalDigit(s[0]);
    assert "CHAIN_ID__ETHEREUM"[0] == 'C' && "CHAIN_ID__GNOSIS_XDAI"[0] == 'C';
  }

  /** `findRealToken(contract, realtokenList, chainId)` as written. */
  function FindRealTokenAsWritten(contract: string, items: seq<RealToken>, chainId: int): Option<RealToken> {
    Find(items, ChainKeyAsWritten(chainId), contract)
  }

  /** As written, the lookup never finds a token. */
  lemma AsWrittenNeverFinds(contract: string, items: seq<RealToken>, chainId: int)
    ensures FindRealTokenAsWritten(contract, items, chainId) == None
  {
    ChainKeyAsWrittenIsUndefined(chainId);
    FindSpec(items, None, contract);
  }

  // ---------------------------------------------------------------------------
  // The intended key map

  /** `{ [CHAIN_ID__ETHEREUM]: 'ethereum', [CHAIN_ID__GNOSIS_XDAI]: 'xDai' }[chainId]` */
  function ChainKey(chainId: int): (r: Option<Blockchain>)
    ensures r == Some(Ethereum) <==> chainId == CHAIN_ID_ETHEREUM
    ensures r == Some(XDai) <==> chainId == CHAIN_ID_GNOSIS_XDAI
    ensures r.None? <==> chainId != CHAIN_ID_ETHEREUM && chainId != CHAIN_ID_GNOSIS_XDAI
  {
    if chainId == CHAIN_ID_ETHEREUM then Some(Ethereum)
    else if chainId == CHAIN_ID_GNOSIS_XDAI then Some(XDai)
    else None
  }

  /** `findRealToken(contract, realtokenList, chainId)` with the numeric keys. */
  function FindRealToken(contract: string, items: seq<RealToken>, chainId: int): Option<RealToken> {
    Find(items, ChainKey(chainId), contract)
  }

  /** On Gnosis, the first token whose xDai contract matches ignoring case is found. */
  lemma FindRealTokenOnGnosis(contract: string, items: seq<RealToken>, k: nat)
    requires k < |items| && items[k].xDaiContract.Some? && items[k].xDaiContract.value != ""
    requires Lower(items[k].xDaiContract.value) == Lower(contract)
    requires forall j :: 0 <= j < k ==> !Matches(items[j], Some(XDai), contract)
    ensures FindRealToken(contract, items, CHAIN_ID_GNOSIS_XDAI) == Some(items[k])
  {
    assert Matches(items[k], Some(XDai), contract);
  }

  /** The discrepancy: a one-token list whose xDai contract is the address looked up
      (in another case) is found with the numeric keys and missed as written. */
  lemma KeyMapCounterexample()
    ensures var items := [RealToken(None, Some("0xAB"))];
            && FindRealToken("0xab", items, CHAIN_ID_GNOSIS_XDAI) == Some(items[0])
            && FindRealTokenAsWritten("0xab", items, CHAIN_ID_GNOSIS_XDAI) == None
  {
    var items := [RealToken(None, Some("0xAB"))];
    assert Lower("0xAB") == "0xab";
    assert Lower("0xab") == "0xab";
    FindRealTokenOnGnosis("0xab", items, 0);
    AsWrittenNeverFinds("0xab", items, CHAIN_ID_GNOSIS_XDAI);
  }
}
