# RealToken dashboard: RPC layer, batch calls and settings, in Dafny

This project models the core of the RealToken dashboard (dashboard-v2). Each part has its own module and file:

- `rpc_catalog.dfy` (RpcCatalog) builds the catalog of RPC endpoint URLs for a network.
- `rpc_provider.dfy` (RpcProvider) models the probe that measures how many concurrent batches an endpoint sustains, the choice of the first working endpoint, the transaction-receipt poller and `getChainId`.
- `batch_executor.dfy` (BatchExecutor) is the batch executor. It runs one contract call per work item, in chunks that shrink from attempt to attempt, with up to five attempts.
- `lp_infos.dfy` (LpInfos) holds the liquidity-pool helpers: the known-token list, token pairs, HoneySwap pair addresses and the balance matrix.
- `stablecoin.dfy` (Stablecoin) is the stablecoin classification.
- `find_real_token.dfy` (RealTokenLookup) is the RealToken lookup by contract address.
- `manage_wallet.dfy` (ManageWallet) holds the custom and hidden address lists and the add-address form of the wallet dialog.
- `asset_grid.dfy` (AssetGrid) covers the paging of the asset grid.
- `settings.dfy` (Settings) covers the settings store, its `localStorage` mirror and the `setUserAddress` thunk.

Three shared modules support them:

- `wrappers.dfy` holds the Option and Result types.
- `js_text.dfy` holds the JavaScript string built-ins the code relies on: case mapping, `trim`, `split`, `BigInt(string)` and number-to-string.
- `chains.dfy` holds chain ids and token addresses.

Everything the code gets from the outside is a function parameter, i.e. an oracle:

- the network;
- the process environment;
- `localStorage`, which is a map;
- JSON encoding and decoding;
- the user repository;
- ethers' `isAddress`.

Code that changes state step by step is written as methods with loops, each proved equal to a specification function. This covers the chunk loop, the retry loop, the threshold search, the endpoint selection, the receipt poller and the other-token filter. The wallet dialog and the settings store are classes whose fields the methods update. Pure code is written as functions, and the properties are proved as lemmas about those functions.

A few modelling choices follow the code rather than its apparent intent:

- **Chunk size.** `100 / attempt` is a fractional step, and `slice` truncates it. The model chooses the exact start `floor(100·k / a)` for chunk `k` of attempt `a`, so attempt 3 uses chunks of 33 and 34 items. The source adds the step as a floating-point number, which can start a chunk one item earlier (see "## Left out"). The attempt's result is the same for every split, so this choice does not change it.
- **The probe's call.** The probe passes seven arguments to the three-parameter batch function. The extra arguments are ignored, so every probe batch is a full five-attempt batch. The probe also always calls `balanceOf` on the REG contract, whatever ERC-20 address it was given.
- **`contractCall` does not await.** It returns the contract's promise without awaiting it. Only a synchronous throw becomes `null`, and a rejected call rejects the whole chunk, which fails the attempt.
- **The chunk error handler.** In `batchCallOneContractOneFunctionMultipleParams` the error handler awaits `getNetwork()`. If that throws, the outer catch ends every remaining attempt.

## Model

| member | source | states |
|---|---|---|
| RpcCatalog.ChainConfigFor | src/repositories/RpcProvider.ts:54-70 | Ethereum and Gnosis get their variable name and default list. Polygon gets no variable and no defaults. Any other chain id is an `Unsupported chain ID` error. |
| RpcCatalog.DedupSpec | src/repositories/RpcProvider.ts:88 | `Array.from(new Set(xs))` keeps exactly the values of `xs`, each once, in order of first occurrence. |
| RpcCatalog.KeepNonBlankSpec | src/repositories/RpcProvider.ts:91 | The blank filter keeps exactly the entries that are not all whitespace. It keeps them untrimmed and in their order. |
| RpcCatalog.GetConfigRpcUrls | src/repositories/RpcProvider.ts:30-116 | The call fails exactly for unsupported chains, with that chain id. Otherwise it returns the split, dedup and filter pipeline applied to the environment entries followed by the defaults. |
| RpcCatalog.UrlsForContents | src/repositories/RpcProvider.ts:77-93 | The catalog is exactly the non-blank candidates, with no duplicates, in first-occurrence order. |
| RpcCatalog.CatalogContents | src/repositories/RpcProvider.ts:30-116 | Same as UrlsForContents, stated for every supported chain id. |
| RpcCatalog.ConfiguredBeforeDefaults | src/repositories/RpcProvider.ts:78-81 | A URL listed in the environment comes before every URL that only the defaults list. |
| RpcCatalog.PolygonCatalogIsEmpty | src/repositories/RpcProvider.ts:64-67 | Polygon's catalog is empty. |
| RpcCatalog.OrderedHasNoDuplicates | src/repositories/RpcProvider.ts:88 | A list in strict first-occurrence order has no repeated entry. |
| RpcCatalog.FirstIndexOfPrefix | src/repositories/RpcProvider.ts:81 | Appending the defaults does not move the first occurrence of a URL from the environment. |
| BatchExecutor.ContractCall | src/utils/blockchain/contract.ts:58-70 | A synchronous throw becomes `null`, a resolved value is passed through, and a rejection passes through as a rejection. |
| BatchExecutor.PromiseAllSpec | src/utils/blockchain/contract.ts:36 | `Promise.all` rejects exactly when one promise rejects. Otherwise it gives every value, in order. |
| BatchExecutor.PromiseAllConcat | src/utils/blockchain/contract.ts:36-37 | Awaiting two lists one after the other and concatenating the results is the same as awaiting their concatenation. |
| BatchExecutor.BoundaryIsFloor | src/utils/blockchain/contract.ts:26-28 | In the model, chunk `k` of attempt `a` starts at `floor(100·k / a)`, the exact value of the truncated fractional step. |
| BatchExecutor.BoundaryStep | src/utils/blockchain/contract.ts:26-28 | Successive chunk starts are between `floor(100/a)` and `ceil(100/a)` apart, starting from 0. |
| BatchExecutor.ChunkSizes | src/utils/blockchain/contract.ts:3-28 | The chunk sizes of attempts 1 to 5 are 100, 50, 33 or 34, 25 and 20. |
| BatchExecutor.SplitIntoChunks | src/utils/blockchain/contract.ts:24-29 | The chunks are non-empty, contiguous and at most `ceil(100/a)` long. Every chunk but the last is at least `floor(100/a)` long. Together they concatenate back to the input. |
| BatchExecutor.ChunkLoop | src/utils/blockchain/contract.ts:27-29 | For any chunk-start sequence that begins at 0 and grows by between `lo` and `hi` per chunk, the slicing loop returns the consecutive slices between successive starts. The slices cover the whole input, and each is between 1 and `hi` items long, at least `lo` unless it is the last. |
| BatchExecutor.Dispatch | src/utils/blockchain/contract.ts:33-35 | There is one `contractCall` promise per work item, in input order. |
| BatchExecutor.AttemptOutcomeSpec | src/utils/blockchain/contract.ts:21-43 | An attempt fails exactly when one of its calls rejects. Otherwise entry `p` is call `p`'s value, or `null` where that call threw synchronously. |
| BatchExecutor.DispatchChunk | src/utils/blockchain/contract.ts:31-35 | A chunk's promises are exactly the slice of the attempt's promises at the chunk's position. |
| BatchExecutor.AwaitChunks | src/utils/blockchain/contract.ts:30-43 | For any split of the work list into chunks, awaiting the chunks one at a time and appending each chunk's results gives exactly the outcome of one `Promise.all` over the whole work list. |
| BatchExecutor.RunAttempt | src/utils/blockchain/contract.ts:21-43 | Chunk-by-chunk awaiting with `concat` gives the same result as one `Promise.all` over the whole work list, whatever the chunk size. |
| BatchExecutor.RunBatch | src/utils/blockchain/contract.ts:16-52 | The retry loop returns the first successful attempt's results. It stops after 5 attempts, or earlier when an error handler throws. It makes between 1 and 5 attempts. |
| BatchExecutor.MultipleParamsCalls | src/utils/blockchain/contract.ts:10-35 | There is one call per argument list, all on the same contract and method, in order. |
| BatchExecutor.OneFunctionCalls | src/utils/blockchain/contract.ts:75-117 | There is one call per contract, all with the same method and arguments, in order. |
| BatchExecutor.BatchCallOneContractOneFunctionMultipleParams | src/utils/blockchain/contract.ts:10-56 | The result is the retry loop's result over the argument lists. A throwing `getNetwork()` in the error handler ends the retries with `undefined`. |
| BatchExecutor.BatchCallOneFunction | src/utils/blockchain/contract.ts:75-142 | The result is the retry loop's result over the contracts. Its error handler never throws. |
| BatchExecutor.FirstSuccessWins | src/utils/blockchain/contract.ts:17-52 | When attempt `n` is reached (every earlier attempt failed without its handler throwing) and `n` succeeds, the batch returns attempt `n`'s results. |
| BatchExecutor.ResultComesFromAnAttempt | src/utils/blockchain/contract.ts:17-52 | Every successful batch result is the result of some reached, successful attempt. |
| BatchExecutor.HandlerThrowEndsBatch | src/utils/blockchain/contract.ts:44-55 | If a reached attempt fails and its error handler throws, the batch gives `undefined`. |
| BatchExecutor.BatchResultShape | src/utils/blockchain/contract.ts:10-56 | A successful batch has one entry per work item. Some reached attempt had no rejected call, and entry `i` is call `i`'s value on that attempt, or `null` where the call threw. |
| BatchExecutor.AllAttemptsFail | src/utils/blockchain/contract.ts:6-52 | When all five attempts fail, the batch gives `undefined`. |
| BatchExecutor.EmptyBatch | src/utils/blockchain/contract.ts:27-43 | An empty work list succeeds on the first attempt with `[]`. |
| RpcProvider.ProbeArgs | src/repositories/RpcProvider.ts:182 | The probe's argument list is `requestsBatchSize` copies of `[ZeroAddress]`. |
| RpcProvider.LaunchLevel | src/repositories/RpcProvider.ts:190-208 | The inner loop starts exactly `level` probe batches. Entry `k` is what batch `k` of that level resolves to. |
| RpcProvider.ThresholdFromSpec | src/repositories/RpcProvider.ts:185-218 | The descending search returns 0 or a passing level in `[min, level]`, and every higher level in the range fails. |
| RpcProvider.ThresholdSpec | src/repositories/RpcProvider.ts:149-223 | A failed parameter check gives 0. Otherwise the result is the highest level from `max` down to `min` at which no batch resolved to `undefined`, or 0 when there is none. |
| RpcProvider.TestRpcThresholds | src/repositories/RpcProvider.ts:149-223 | The nested loops that launch `level` batches per level and stop at the first passing level compute exactly that threshold. |
| RpcProvider.ScanUrls | src/repositories/RpcProvider.ts:231-283 | The URL loop stops at the first URL that connects and whose fixed probe finds a threshold of at least 1. Its failure count is that URL's index, or the list length when none works. |
| RpcProvider.WorksIffFiveBatchesSucceed | src/repositories/RpcProvider.ts:235-254 | A URL is accepted exactly when it connects and five concurrent probe batches of five calls all return an array. |
| RpcProvider.FirstWorking | src/repositories/RpcProvider.ts:231-283 | The index found is that of a working URL, and every URL before it fails (or the index is the end of the list). |
| RpcProvider.GetWorkingRpc | src/repositories/RpcProvider.ts:226-289 | An unsupported chain is an error. Otherwise the result is the first working catalog URL, and the failure count is the number of URLs before it. When none works, including an empty catalog, the call fails with the URL count. |
| RpcProvider.FirstWorkingAt | src/repositories/RpcProvider.ts:231-266 | The first working index is `i` when every URL before `i` fails and URL `i` works. |
| RpcProvider.SelectedUrlIsACandidate | src/repositories/RpcProvider.ts:230-266 | The selected URL is a non-blank catalog candidate. |
| RpcProvider.ReceiptProvider | src/repositories/RpcProvider.ts:338 | Chain id 1 uses the Ethereum provider and every other chain id uses the Gnosis provider. |
| RpcProvider.GetTransactionReceipt | src/repositories/RpcProvider.ts:329-349 | The poller makes 1 to 3 queries and returns the polling result. A failing query rejects. |
| RpcProvider.ReceiptSpec | src/repositories/RpcProvider.ts:340-348 | The poller returns `null` exactly when all three queries answered `null`. It returns a receipt exactly when that receipt is the first non-`null` answer among the three. |
| RpcProvider.GetChainId | src/repositories/RpcProvider.ts:356-362 | The result is defined exactly when there is a provider with a cached non-zero chain id, and then it is that id. |
| LpInfos.GetFactoryAbi | src/utils/blockchain/lpInfos.ts:23-31 | Only `UNIV2` has an ABI. |
| LpInfos.GetFactoryContract | src/utils/blockchain/lpInfos.ts:33-56 | A contract exists exactly for `UNIV2`, and it sits at the given address. |
| LpInfos.KnownTokens | src/utils/blockchain/lpInfos.ts:189-228 | Only Gnosis and Ethereum have a list, and Ethereum's list is empty. |
| LpInfos.KeepOthersSpec | src/utils/blockchain/lpInfos.ts:233-237 | The filter keeps exactly the tokens whose upper-cased form differs from the address: every copy of each, in their order. |
| LpInfos.PushOthers | src/utils/blockchain/lpInfos.ts:233-237 | The `forEach` push loop builds exactly the filtered list whose contents `KeepOthersSpec` states. |
| LpInfos.GetOtherTokensAddresses | src/utils/blockchain/lpInfos.ts:208-243 | An unknown chain gives `[]`. An empty address gives the chain's whole list. Otherwise the result is the push loop's filtered list. |
| LpInfos.OtherTokensSpec | src/utils/blockchain/lpInfos.ts:208-243 | Any chain but Gnosis gives `[]`. An empty address gives the whole Gnosis list. Otherwise the result is the known tokens that differ from the address ignoring case, every copy of each, in order. |
| LpInfos.OtherTokensIgnoresCase | src/utils/blockchain/lpInfos.ts:215-237 | The address's case does not change the result. |
| LpInfos.GetPairs | src/utils/blockchain/lpInfos.ts:245-258 | There is one pair `[contract, other]` per other token, in order. |
| LpInfos.PairsRecoverOthers | src/utils/blockchain/lpInfos.ts:250-252 | The second members of the pairs give back the other-token list. |
| LpInfos.GetUniV2PairAddress | src/utils/blockchain/lpInfos.ts:58-73 | The result is the factory's `getPair` answer, or `''` when the call throws. |
| LpInfos.GetUniV2PairAddresses | src/utils/blockchain/lpInfos.ts:75-96 | There is one pair address per pair, in order. |
| LpInfos.LpAddressesSpec | src/utils/blockchain/lpInfos.ts:106-183 | The result is `[]` with no pairs, on any chain but Gnosis, or for any type but `UNIV2`. Otherwise it is the HoneySwap pair address of each other token, in order. |
| LpInfos.NormalizeBalance | src/utils/blockchain/lpInfos.ts:330-340 | A falsy or `null` balance gives 0, as does text `BigInt` rejects. Otherwise the result is the parsed value. |
| LpInfos.NormalizeRow | src/utils/blockchain/lpInfos.ts:329-343 | A failed user batch becomes a row of zeros, one per ERC-20 contract. Otherwise every entry is normalised. |
| LpInfos.GetAddressesBalances | src/utils/blockchain/lpInfos.ts:260-368 | The early returns, one batch per user, and the normalisation compute the balance matrix. |
| LpInfos.BalancesMatrixShape | src/utils/blockchain/lpInfos.ts:268-345 | The matrix is `[]` when an input list is empty, there is no provider or the `balanceOf` ABI is missing. Otherwise it has one row per user and one entry per contract: the normalised balance where the user's batch was fulfilled, and zeros where it failed. |
| LpInfos.NormalizeKeepsBalance | src/utils/blockchain/lpInfos.ts:334 | A balance read back from its `toString()` is unchanged. |
| LpInfos.GetAddressesLpBalances | src/utils/blockchain/lpInfos.ts:371-424 | The result is 0 on every path. The pair lookup and the balances are computed and then discarded. |
| Stablecoin.ListsAreLowerCase | src/utils/blockchain/Stablecoin.ts:4-28 | Every listed address is lower-case. |
| Stablecoin.IsStableIgnoresCase | src/utils/blockchain/Stablecoin.ts:24-26 | A token and its lower-cased form are classified alike. |
| Stablecoin.IsStableExactlyTheList | src/utils/blockchain/Stablecoin.ts:15-26 | `isStable` holds exactly for the six listed addresses, in any case. |
| Stablecoin.Decimals | src/utils/blockchain/Stablecoin.ts:28-33 | The decimals are 6 exactly for the three USDC addresses and 18 otherwise. |
| Stablecoin.SixDecimalsAreStable | src/utils/blockchain/Stablecoin.ts:15-28 | Every 6-decimal token is a stablecoin. |
| Stablecoin.ParseValue | src/utils/blockchain/Stablecoin.ts:30-34 | The parsed value times `10^decimals` is the raw value. |
| RealTokenLookup.FirstMatch | src/utils/realtoken/findRealToken.ts:11-15 | The index found is that of the first item whose non-empty contract on the blockchain equals the address ignoring case, or the end of the list. |
| RealTokenLookup.FindSpec | src/utils/realtoken/findRealToken.ts:11-15 | `find` gives `undefined` exactly when no item matches, and otherwise the first match. An item with no contract, or an empty one, never matches. |
| RealTokenLookup.FindIgnoresCase | src/utils/realtoken/findRealToken.ts:14 | The searched address's case does not matter. |
| RealTokenLookup.ChainKeyAsWrittenIsUndefined | src/utils/realtoken/findRealToken.ts:9 | The object literal keyed by the names `CHAIN_ID__…` gives `undefined` for every numeric chain id. |
| RealTokenLookup.AsWrittenNeverFinds | src/utils/realtoken/findRealToken.ts:4-16 | As written, `findRealToken` returns `undefined` for every input. |
| RealTokenLookup.ChainKey | src/utils/realtoken/findRealToken.ts:9 | The intended key map sends 1 to Ethereum and 100 to xDai, and every other id to `undefined`. |
| RealTokenLookup.FindRealTokenOnGnosis | src/utils/realtoken/findRealToken.ts:4-16 | With numeric keys on Gnosis, the first token whose xDai contract matches ignoring case is found. |
| RealTokenLookup.KeyMapCounterexample | src/utils/realtoken/findRealToken.ts:9 | A one-token list whose xDai contract matches is found with numeric keys and missed as written. |
| ManageWallet.RemoveAllSpec | src/components/modals/ManageWalletModal.tsx:185 | Filtering drops exactly the entries equal to the address and keeps every copy of the others, in order. |
| ManageWallet.RemoveAllAppend | src/components/modals/ManageWalletModal.tsx:185 | Filtering distributes over concatenation. |
| ManageWallet.ToggleSpec | src/components/modals/ManageWalletModal.tsx:188-194 | Toggling flips whether the address is hidden. Every other address keeps its number of copies, and removal keeps their order. |
| ManageWallet.ToggleTwiceRestores | src/components/modals/ManageWalletModal.tsx:188-194 | Hiding a shown address and showing it again restores the hidden list exactly. |
| ManageWallet.WalletLists.constructor | src/components/modals/ManageWalletModal.tsx:170-176 | The lists start from the user's lists, or `[]` when the user has none. |
| ManageWallet.WalletLists.AddAddress | src/components/modals/ManageWalletModal.tsx:180-182 | The address is appended to the custom list, and the other lists are unchanged. |
| ManageWallet.WalletLists.RemoveAddress | src/components/modals/ManageWalletModal.tsx:184-186 | Every equal entry leaves the custom list, and the other lists are unchanged. |
| ManageWallet.WalletLists.ToggleAddressVisibility | src/components/modals/ManageWalletModal.tsx:188-194 | The hidden list becomes the toggled list, and the other lists are unchanged. |
| ManageWallet.WalletLists.SubmitAddForm | src/components/modals/ManageWalletModal.tsx:178-182 | The address is checked against the account and custom addresses. An accepted address is appended to the custom list, and the form is emptied, made clean and closed. A rejected one leaves the lists, the address and the open flag as they were and marks the form dirty. |
| ManageWallet.AlreadyAddedSpec | src/components/modals/ManageWalletModal.tsx:36-38 | The duplicate check holds exactly when some listed address equals the input ignoring case. |
| ManageWallet.CurrentError | src/components/modals/ManageWalletModal.tsx:35-44 | An invalid address is reported first, then a duplicate. There is no error exactly when the address is valid and new. |
| ManageWallet.AddressForm.constructor | src/components/modals/ManageWalletModal.tsx:31-33 | The form starts closed, empty and not dirty. |
| ManageWallet.AddressForm.DisplayedError | src/components/modals/ManageWalletModal.tsx:75 | An error is shown only once the form is dirty, and it is the current error. |
| ManageWallet.AddressForm.SetAddress | src/components/modals/ManageWalletModal.tsx:76 | Typing replaces the address only. |
| ManageWallet.AddressForm.Open | src/components/modals/ManageWalletModal.tsx:31 | Opening changes nothing but the open flag. |
| ManageWallet.AddressForm.ResetAndClose | src/components/modals/ManageWalletModal.tsx:46-50 | The form is emptied, not dirty, and closed. |
| ManageWallet.AddressForm.Submit | src/components/modals/ManageWalletModal.tsx:52-58 | With an error, the form is only marked dirty and nothing is handed over. Otherwise the address is handed over once and the form is reset and closed. |
| ManageWallet.AcceptedAddressIsNew | src/components/modals/ManageWalletModal.tsx:35-58 | An accepted address is valid and differs, ignoring case, from every listed address. |
| AssetGrid.PageContents | src/components/assetsView/views/AssetGrid.tsx:37-42 | Page `p` of size `s` is the list from `(p-1)·s`: at most `s` items, in order. A page past the end is empty. |
| AssetGrid.AllShowsEverything | src/components/assetsView/views/AssetGrid.tsx:38 | "All" shows the whole list and no page numbers. |
| AssetGrid.PageCountIsCeiling | src/components/assetsView/views/AssetGrid.tsx:102-106 | The page count is `ceil(len / s)`: enough pages for every item, and no extra page. |
| AssetGrid.PagesUpToPrefix | src/components/assetsView/views/AssetGrid.tsx:39-41 | Pages 1 to `k` read in order are the first `k·s` items. |
| AssetGrid.PagesCoverTheList | src/components/assetsView/views/AssetGrid.tsx:39-106 | Pages 1 to the page count concatenate back to the whole list. |
| AssetGrid.SlicePosition | src/components/assetsView/views/AssetGrid.tsx:41 | `slice` positions are clamped to the list. An in-range position is kept. |
| AssetGrid.PageSizeOptions | src/components/assetsView/views/AssetGrid.tsx:51-62 | The options are `All` followed by the decimal strings of 20, 40, 100 and 200. |
| AssetGrid.SelectableSizes | src/components/assetsView/views/AssetGrid.tsx:51-117 | Every option selects "All" or one of 20, 40, 100 and 200, and each of those sizes can be selected. |
| AssetGrid.RenderedSpec | src/components/assetsView/views/AssetGrid.tsx:68-91 | Properties are always rendered. Other assets are rendered only with `showOtherAssets`. Each rendered item appears as often as on the page, in page order. |
| Settings.StoredValue | src/store/features/settings/settingsSlice.ts:103-114 | A stored value counts exactly when it is present and non-empty. |
| Settings.InitialState | src/store/features/settings/settingsSlice.ts:31-36 | The initial state has no user, USD, the global rent calculation, and is not initialized. |
| Settings.ChangesTouchOnlyTheirKey | src/store/features/settings/settingsSlice.ts:88-101 | Each change sets its own field and storage key and nothing else. Clearing the user removes the user key. |
| Settings.InitializeSpec | src/store/features/settings/settingsSlice.ts:102-123 | Initialization fails only on an unreadable stored user. Otherwise the user is the decoded stored user, and the currency and rent calculation are the stored strings. Absent or empty keys fall back to no user, USD and Global. It stores the version or `''` under `lastVersionUsed`, and sets `isInitialized`. |
| Settings.InitializeIdempotent | src/store/features/settings/settingsSlice.ts:102-123 | Initializing twice is initializing once. |
| Settings.SettingsSurviveReload | src/store/features/settings/settingsSlice.ts:88-114 | A user, currency and rent calculation that were set are read back by the next initialization. |
| Settings.SetUserAddress | src/store/features/settings/settingsSlice.ts:56-82 | `''` dispatches an undefined user with no repository call, and it is the only input that does. A missing or falsy user id dispatches nothing after one call. A failing `getUserDetails` dispatches nothing after two calls. A dispatched user carries the repository's id. |
| Settings.SetUserAddressFound | src/store/features/settings/settingsSlice.ts:66-77 | A found user is dispatched with the repository's details. Its `mainAddress` is the repository's when present, and the lower-cased address otherwise. |
| Settings.SettingsStore.constructor | src/store/features/settings/settingsSlice.ts:31-36 | The store starts in the initial state. |
| Settings.SettingsStore.OnUserChanged | src/store/features/settings/settingsSlice.ts:88-93 | The in-place update equals the reducer's `userChanged` case. |
| Settings.SettingsStore.OnUserCurrencyChanged | src/store/features/settings/settingsSlice.ts:94-97 | The in-place update equals the reducer's `userCurrencyChanged` case. |
| Settings.SettingsStore.OnUserRentCalculationChanged | src/store/features/settings/settingsSlice.ts:98-101 | The in-place update equals the reducer's `userRentCalculationChanged` case. |
| Settings.SettingsStore.OnInitializeSettings | src/store/features/settings/settingsSlice.ts:102-123 | The in-place update equals the reducer's `initializeSettings` case. When that case throws, the state is unchanged. |
| Settings.SettingsStore.SetUserAddressAndDispatch | src/store/features/settings/settingsSlice.ts:56-93 | Running the thunk changes the state exactly as the `userChanged` action it dispatches, and not at all when it dispatches nothing. |
| JsText.LowerIdempotent | src/utils/blockchain/Stablecoin.ts:25 | Lower-casing twice is lower-casing once. |
| JsText.UpperIdempotent | src/utils/blockchain/lpInfos.ts:215-234 | Upper-casing twice is upper-casing once. |
| JsText.TrimEmptyIffBlank | src/repositories/RpcProvider.ts:91 | `trim()` gives `''` exactly for an all-whitespace string. |
| JsText.JoinSplit | src/repositories/RpcProvider.ts:78 | Joining the pieces of `split(',')` with `,` gives back the string. |
| JsText.SplitJoin | src/repositories/RpcProvider.ts:78 | Splitting a join of comma-free pieces gives back the pieces. |
| JsText.SplitPiecesHaveNoSeparator | src/repositories/RpcProvider.ts:78 | No piece of `split(',')` contains a comma. |
| JsText.BigIntStringRoundTrip | src/utils/blockchain/lpInfos.ts:334 | `BigInt(n.toString())` is `n`. |

## Left out

- BatchExecutor.Boundary: the source's loop index is a floating-point sum of `100 / attempt`. For attempt 3 that sum falls just short of a whole number at some chunks (399.99999999999994 at k = 12, 499.9999999999999 at k = 15), so those chunks start one item earlier than `floor(100·k / 3)`. This changes chunk sizes and can add a 1-item chunk (a 400-item list). It does not change the result, because `AwaitChunks` holds for every split.
- `initializeProviders` (src/repositories/RpcProvider.ts:296-321) is left out. Its single-flight queue is about concurrent callers. The queue is set at line 303 and never reset after a failure. The receipt poller takes the resolved providers as a parameter.
- Waits and timers have no effect on any result, so they are left out. These are `wait`, `setTimeout`, and the un-awaited waits in the batch executor.
- Logging, `console.*` and i18n messages are left out.
- Running batches concurrently is left out. `Promise.all` is modelled by its result, and calls are dispatched in list order.
- Real network calls are oracles, not models. This covers connecting, `getNetwork`/`getBlockNumber`, `balanceOf`, `getPair` and receipt queries.
- `JSON.stringify`, `JSON.parse`, `UserRepository`, ethers' `isAddress` and the runtime configuration are also oracles.
- `ManageWalletModal`'s `onSubmit` is left out. It dispatches `setCustomAddressList`/`setHiddenAddressList` and closes the dialog. The settings slice in this model does not define those actions.
- `WalletItem`'s `getAddress` checksum rendering is left out.
- JSX rendering, Mantine components and the scroll-to-top side effect are left out.
- AssetGrid's `page`/`pageSize` state and its reset effect are left out. Pages are parameters of the paging functions.
- Stablecoin.ParseValue: the result is the exact rational `value / 10^decimals`. Rounding from `formatUnits`/`formatEther` to a JavaScript `Number` is not modelled.
- JsText.Lower: `toLowerCase`/`toUpperCase` are modelled on ASCII letters only. Addresses and keys are ASCII.
- Settings.InitializeSpec: a stored user is whatever `decode` returns. A value that parses but is not user-shaped is not modelled.
- AssetGrid.PageSizeFor: only unsigned decimal-integer option strings are modelled. `Number(val)` also accepts a sign, exponents, fractions and `NaN` (`"-5"` is -5 and `"1e2"` is 100), where the model gives `None`. None of these strings is among the selector's fixed options.
- `chainId` arguments are integers. Non-integer JavaScript numbers are not modelled.
- The chain-id constants `CHAIN_ID__ETHEREUM` and `CHAIN_ID__GNOSIS_XDAI` are assumed to equal `CHAIN_ID_ETHEREUM` (1) and `CHAIN_ID_GNOSIS_XDAI` (100). The constants files that define them, and the token addresses, are not part of this model.
- `getOtherTokensAddresses` is called with a string address, as its TypeScript type requires. An `undefined` address is not modelled.
- The `userAddressBalances ?` test at lpInfos.ts:329 is modelled by its always-taken branch. `Promise.all` always gives an array.
- The probe's `1, // only test once` argument (RpcProvider.ts:204) is modelled as the code behaves, not as the comment intends: each probe batch may retry five times.

## Findings

| source | as written | input that shows it | evidently intended | confidence | as-written member | corrected member |
|---|---|---|---|---|---|---|
| src/utils/realtoken/findRealToken.ts:9 | The key map `{ CHAIN_ID__ETHEREUM: 'ethereum', CHAIN_ID__GNOSIS_XDAI: 'xDai' }` uses the constant NAMES as string keys. Indexing it with a numeric chain id gives `undefined`, so no token is ever found. | `findRealToken('0xab', [token with xDai contract '0xAB'], 100)` gives `undefined` | Computed keys `[CHAIN_ID__ETHEREUM]`, `[CHAIN_ID__GNOSIS_XDAI]`, so that chain 100 looks up the xDai contract | high (not executed) | RealTokenLookup.KeyMapCounterexample | RealTokenLookup.FindRealTokenOnGnosis |
