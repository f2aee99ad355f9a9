# Crypto portfolio tracker: store layer in Dafny

This project models the Redux store layer of a crypto portfolio tracker:

- the **holdings store** (`src/store/slices/portfolio-slice.ts`): an ordered list of
  `{id, quantity}` holdings with the reducers `addCrypto`, `editCrypto` and `deleteCrypto`,
  written through to the `"portfolio"` entry of the browser's storage;
- the **legacy holdings store** (`src/store/portfolio-slice.ts`): the same reducers and
  persistence, matching holdings by `symbol`;
- the **asset cache** (`src/store/slices/crypto-slice.ts`): a dictionary of assets keyed by id
  with an `idle | loading | failed` status, driven by the pending, fulfilled and rejected
  actions of the `fetchCryptoAssets` thunk, whose payload is built by an array-to-dictionary
  `reduce`;
- the **selectors** (`src/store/selectors/portfolio-selectors.ts`): the holdings, the assets,
  and the enriched portfolio that joins each holding with its asset.

Modules, one per source file plus shared ones:

- `Types` (`types.dfy`): the records. Prices and quantities are exact `real`s.
- `LocalStorage` (`local_storage.dfy`): the `"portfolio"` entry as `Slot<T> = Absent | Stored(items)`.
  The entry's JSON text is abstracted to the list it encodes.
- `KeyedSeq` (`keyed_seq.dfy`): `Position`, which is `findIndex` by key, and `Without`, which is
  `filter` by key. Both stores use them, each with its own key function.
- `PortfolioSlice` (`portfolio_slice.dfy`) and `LegacyPortfolioSlice` (`legacy_portfolio_slice.dfy`).
  Each store is a class with three fields: `state` (the list, updated in place), `slot` (the
  storage entry) and `writes` (how many times the entry was written). The predicate
  `WriteThrough()` says the entry holds exactly the in-memory list.
- `CryptoSlice` (`crypto_slice.dfy`): the class `Crypto` (its fields are `assets` and `status`),
  the reference function `Dictionary` and the loop method `AssetsToDictionary`.
- `PortfolioSelectors` (`portfolio_selectors.dfy`): the selectors as functions. The map callback is
  `Enrich` and the `filter(Boolean)` step is `Compact`. `Matched` is a reference filter
  used to state the join.

The remote asset list is a parameter of `Crypto.FetchCryptoAssets`: `Some(list)` when the request
succeeded, `None` when it failed.

## Model

| member | source | states |
|---|---|---|
| KeyedSeq.Position | src/store/slices/portfolio-slice.ts:24-26 | the result is -1 exactly when no element has the key; otherwise it is the index of an element with the key, and no earlier element has it |
| KeyedSeq.Without | src/store/slices/portfolio-slice.ts:33 | no survivor has the key; every element without the key survives; every survivor comes from the input; the result is no longer than the input |
| KeyedSeq.WithoutAppend | src/store/slices/portfolio-slice.ts:33 | filtering distributes over concatenation, so survivors keep their relative order |
| KeyedSeq.WithoutMultiplicity | src/store/slices/portfolio-slice.ts:33 | each element without the key survives exactly as many times as it occurs; elements with the key occur zero times |
| KeyedSeq.WithoutAbsent | src/store/portfolio-slice.ts:32-38 | filtering by a key that no element has returns the list unchanged |
| KeyedSeq.WithoutIdempotent | src/store/slices/portfolio-slice.ts:32-36 | deleting the same key twice gives the same list as deleting it once |
| LocalStorage.Load | src/store/slices/portfolio-slice.ts:4-7 | a missing entry loads as the empty list; a stored entry loads as the list it holds |
| LocalStorage.Save | src/store/slices/portfolio-slice.ts:9-11 | the written entry is present, and loading it gives back exactly the saved list |
| PortfolioSlice.Portfolio.constructor | src/store/slices/portfolio-slice.ts:4-13 | the initial slice is the loaded entry (the empty list when the entry is missing), nothing has been written, and the entry and the slice agree |
| PortfolioSlice.Portfolio.SaveToLocalStorage | src/store/slices/portfolio-slice.ts:9-11 | the entry holds the given list, and the write count goes up by one |
| PortfolioSlice.Portfolio.AddCrypto | src/store/slices/portfolio-slice.ts:19-22 | the payload is appended at the end, even when its id is already present; earlier entries are unchanged; the entry holds the new list after one write |
| PortfolioSlice.Portfolio.EditCrypto | src/store/slices/portfolio-slice.ts:23-31 | with an id that is present, the first entry with that id is replaced in place and the new list is written once; with an absent id the list, the entry and the write count are unchanged; write-through is preserved |
| PortfolioSlice.Portfolio.DeleteCrypto | src/store/slices/portfolio-slice.ts:32-36 | the list becomes the holdings whose id differs, and it is written once whether or not anything matched |
| PortfolioSlice.EditReplacesFirstMatchOnly | src/store/slices/portfolio-slice.ts:23-31 | an edit keeps the length; it changes only the first matching index; earlier entries do not match; later duplicates keep their old values |
| PortfolioSlice.DeleteAbsentKeepsContent | src/store/slices/portfolio-slice.ts:32-36 | deleting an id that findIndex does not find leaves the content unchanged |
| PortfolioSlice.DeleteAfterAdd | src/store/slices/portfolio-slice.ts:19-36 | deleting an id after adding a duplicate of it removes every holding with that id, including the new one |
| LegacyPortfolioSlice.LegacyPortfolio.constructor | src/store/portfolio-slice.ts:4-13 | the initial slice is the loaded entry (the empty list when the entry is missing), and nothing has been written |
| LegacyPortfolioSlice.LegacyPortfolio.SaveToLocalStorage | src/store/portfolio-slice.ts:9-11 | the entry holds the given list, and the write count goes up by one |
| LegacyPortfolioSlice.LegacyPortfolio.AddCrypto | src/store/portfolio-slice.ts:19-22 | the payload is appended at the end, and the entry holds exactly the new list |
| LegacyPortfolioSlice.LegacyPortfolio.EditCrypto | src/store/portfolio-slice.ts:23-31 | the first entry with the payload's symbol is replaced at its index, then saved; with an unknown symbol the list, the entry and the write count are unchanged |
| LegacyPortfolioSlice.LegacyPortfolio.DeleteCrypto | src/store/portfolio-slice.ts:32-38 | every holding with the symbol is removed and the rest are kept; the result is saved even when nothing matched |
| LegacyPortfolioSlice.DeleteAbsentKeepsContent | src/store/portfolio-slice.ts:32-38 | deleting an unknown symbol leaves the content unchanged |
| LegacyPortfolioSlice.DeleteScenario | src/store/portfolio-slice.test.ts:62-67 | deleting "BTC" from the Bitcoin and Ethereum holdings leaves only the Ethereum one |
| CryptoSlice.Dictionary | src/store/slices/crypto-slice.ts:17-23 | each value's id is its key; the map has no more entries than the array |
| CryptoSlice.DictionarySnoc | src/store/slices/crypto-slice.ts:18-21 | one step of the reduce stores the next asset under its id, overwriting any earlier value there |
| CryptoSlice.DictionaryKeys | src/store/slices/crypto-slice.ts:17-23 | the key set is exactly the set of ids in the array |
| CryptoSlice.DictionaryLastWins | src/store/slices/crypto-slice.ts:18-21 | with duplicate ids, the value under an id is its last occurrence in the array |
| CryptoSlice.DictionaryValuesFetched | src/store/slices/crypto-slice.ts:17-23 | every value in the dictionary is one of the fetched assets |
| CryptoSlice.AssetsToDictionary | src/store/slices/crypto-slice.ts:17-23 | the in-place reduce over the array builds exactly `Dictionary` of the array |
| CryptoSlice.Crypto.constructor | src/store/slices/crypto-slice.ts:5-8 | the initial state is empty assets with status idle |
| CryptoSlice.Crypto.Pending | src/store/slices/crypto-slice.ts:35-37 | the status becomes loading from any status, and the assets are untouched |
| CryptoSlice.Crypto.Fulfilled | src/store/slices/crypto-slice.ts:38-41 | the status becomes idle, and the payload replaces the assets wholesale |
| CryptoSlice.Crypto.Rejected | src/store/slices/crypto-slice.ts:42-44 | the status becomes failed, and the assets keep their previous value |
| CryptoSlice.Crypto.FetchCryptoAssets | src/store/slices/crypto-slice.ts:11-45 | after a successful fetch the status is idle and the assets are the dictionary of the fetched list; after a failed fetch the status is failed and the assets are as before |
| PortfolioSelectors.SelectPortfolio | src/store/selectors/portfolio-selectors.ts:5 | returns the holdings part of the state unchanged |
| PortfolioSelectors.SelectCryptoAssets | src/store/selectors/portfolio-selectors.ts:6 | returns the asset dictionary of the cache part unchanged |
| PortfolioSelectors.SelectEnrichedPortfolio | src/store/selectors/portfolio-selectors.ts:8-10 | the selector is the result function applied to the state's holdings and assets |
| PortfolioSelectors.Join | src/store/selectors/portfolio-selectors.ts:15-23 | id and quantity come from the holding; name, symbol, current_price and image come from the asset; total_value is the asset's price times the holding's quantity |
| PortfolioSelectors.Enrich | src/store/selectors/portfolio-selectors.ts:12-24 | the callback gives a record exactly when the holding's id has an asset, and that record is the holding joined with the asset |
| PortfolioSelectors.Compact | src/store/selectors/portfolio-selectors.ts:26 | a record is kept exactly when it occurs as a non-empty result; the output is never longer than the input |
| PortfolioSelectors.CompactAppend | src/store/selectors/portfolio-selectors.ts:26 | dropping the empty results distributes over concatenation, so the kept records stay in order |
| PortfolioSelectors.EnrichedPortfolioCons | src/store/selectors/portfolio-selectors.ts:11-26 | the view of a non-empty list is the first holding's record, if it has an asset, followed by the view of the rest |
| PortfolioSelectors.EnrichedPortfolio | src/store/selectors/portfolio-selectors.ts:11-26 | the enriched view is no longer than the holdings list |
| PortfolioSelectors.EnrichedPortfolioJoin | src/store/selectors/portfolio-selectors.ts:11-26 | there is exactly one record per holding whose id has an asset, in the holdings' order, and each record is that holding joined with its asset |
| PortfolioSelectors.EnrichedFields | src/store/selectors/portfolio-selectors.ts:14-22 | each record's id has an asset; its id and quantity come from a holding; name, symbol, current_price and image come from the asset; total_value equals current_price times quantity |
| PortfolioSelectors.EnrichedPortfolioAppend | src/store/selectors/portfolio-selectors.ts:11-26 | enrichment distributes over concatenation of holding lists, so order is preserved |
| PortfolioSelectors.UnknownHoldingDropped | src/store/selectors/portfolio-selectors.ts:13-26 | a holding whose id has no asset adds nothing to the view and causes no error |
| PortfolioSelectors.UnknownHoldingsEnrichToEmpty | src/store/selectors/portfolio-selectors.ts:13-26 | holdings none of which has an asset enrich to the empty list |
| PortfolioSelectors.KnownHoldingKept | src/store/selectors/portfolio-selectors.ts:13-24 | every holding whose id has an asset contributes its joined record |
| PortfolioSelectors.SelectorsReadOnlyTheirParts | src/store/selectors/portfolio-selectors.ts:5-10 | selectPortfolio and selectCryptoAssets return the state's holdings and assets; the enriched selector is the join of exactly those two parts; two states that agree on them (whatever their cache status) select the same enriched view |
| PortfolioSelectors.BitcoinScenario | src/store/selectors/portfolio-selectors.test.ts:36-64 | two bitcoin at 45000 enrich to a record worth 90000, and a holding without an asset is excluded |

## Left out

- JSON text: the storage entry holds the list itself. `JSON.parse(JSON.stringify(list))` is taken to give the list back. It would not for a non-finite quantity (NaN becomes null).
- Malformed storage entries: `JSON.parse` would throw on them, so they are not treated as an empty list. They cannot be represented in the model. An unparsable entry is not silently replaced by the empty list: the code gives no such fallback, and the model follows the code. An empty-string entry, which the code also treats as missing, cannot be represented either.
- The rest of the browser's storage: only the `"portfolio"` entry is modelled, as the `slot` field of each store; its key is fixed and not part of the model. The two store files use the same key; the model keeps each store's slot separate.
- Immer drafts: in-place `push` and index assignment are modelled by reassigning the `state` field of the class.
- Quantity validation: holdings are meant to have positive quantities. The reducers do not check this, so the model leaves quantities unconstrained. Validation happens in components, using `parseFloat`.
- IEEE floating point: `current_price * quantity` is exact real multiplication.
- JavaScript object lookups: the asset dictionary is a plain map. In the code, an id that names an inherited object property (such as `toString` or `__proto__`) would behave differently in `cryptoAssets[id]` and in `acc[asset.id] = asset`. This is not modelled.
- `createSelector` memoization and referential stability are library behaviour. Only the result function and the two input selectors are modelled.
- `createAsyncThunk` dispatch plumbing: each `FetchCryptoAssets` call runs pending and then fulfilled or rejected to completion. Overlapping refreshes that resolve out of order are not modelled.
- `src/services/crypto-service.ts` (the network calls) is not part of this model. Its result is the `response` parameter.
- `src/components/HistoricChart.tsx` and its cancellation protocol are not part of this model: they concern asynchronous interleaving and a chart resource. The same goes for all pages and components, which are rendering and number formatting.
- Notifications: the modelled reducers emit none.
- `src/store/types.ts` is not part of this model. The legacy holding's fields are taken from the legacy store's tests: `name`, `symbol`, `quantity`, `currentPrice`, `totalValue`. Both store files import the same types module, which gives holdings `id` and `quantity`, so the legacy file is evidently older than those types.
- `src/store/store.ts` and the other wiring and configuration files are not part of this model.
