# CryptoTracker favourites and detail state, in Dafny

A model of the state-keeping core of the CryptoTracker iOS app:

- `FavoritesManager`: the ordered list of favourite coin ids kept under one
  UserDefaults key, with `getFavorites`, `isFavorite`, `add`, `remove` and `toggle`.
- `FavoritesListViewModel`: the favourites screen. It is seeded from its list cache,
  and `fetchFavorites` refreshes it with a batch-by-ids request. A failed request
  falls back to the cache.
- `CryptoDetailViewModel`: one coin's screen. It covers the detail request, the
  chart request for a `Period`, the projection of chart samples into a price series
  and a timestamp series, and the favourite toggle.

All state is immutable records. Every request is two pure transitions:
the call that issues it (`FetchFavorites`, `FetchDetails`, `FetchHistory`)
and the delivery of its abstract `Result` on the main queue (`Complete`,
`CompleteDetails`, `CompleteHistory`). A success is delivered as Combine
delivers it: the value handler runs first, then the `.finished` completion.
So a success never touches the `error` field. The favourites store and the
cache file are explicit values passed in and returned.

Files:
- `wrappers.dfy`: `Option` and `Result`.
- `sequences.dfy`: the Swift array operations the store uses, each tied to a
  reference definition. It also defines the duplicate-free invariant.
- `favorites.dfy`: the store and its properties.
- `domain.dfy`: coins, network errors, chart payloads and the cache file.
- `favorites_list.dfy`: the favourites screen.
- `crypto_detail.dfy`: the detail screen and `Period`.

Three behaviours of the code are worth knowing before reading the contracts:
- `fetchHistory` has no period guard. A chart response that arrives late
  overwrites the series, even if the user has since picked another period
  (`CryptoDetail.LateHistoryResponseWins`).
- The detail screen's two requests share one `isLoading` flag. Whichever
  completes first clears it (`CryptoDetail.LoadingFlagSharedByRequests`).
- The favourites are an ordered list, not a set. `add` and `remove` keep
  it free of duplicates (`Favorites.Valid`), and the toggle properties
  depend on that.

## Model

| member | source | states |
|---|---|---|
| Sequences.Contains | CryptoTracker/Managers/FavoritesManager.swift:22 | the linear `contains` scan holds exactly when the value is an element |
| Sequences.FirstIndex | CryptoTracker/Managers/FavoritesManager.swift:35 | `firstIndex(of:)` is nil exactly for an absent value; otherwise it points at the value and no earlier position holds it |
| Sequences.RemoveAt | CryptoTracker/Managers/FavoritesManager.swift:36 | `remove(at:)` shortens by one, keeps the elements before the index and shifts the later ones down by one |
| Sequences.RemoveAtFirstIndex | CryptoTracker/Managers/FavoritesManager.swift:33-39 | removing at the first index of an id deletes only that first occurrence (the reference `RemoveFirst`); the other elements keep their order |
| Sequences.RemoveFirstAbsent | CryptoTracker/Managers/FavoritesManager.swift:33-39 | removing the first occurrence of an absent id leaves the list exactly as it was |
| Sequences.RemoveFirstNoDup | CryptoTracker/Managers/FavoritesManager.swift:33-39 | on a duplicate-free list, removing the first occurrence removes the id entirely and keeps the list duplicate-free |
| Favorites.GetFavorites | CryptoTracker/Managers/FavoritesManager.swift:17-19 | an unwritten key reads as the empty list; a written one reads as exactly the stored list |
| Favorites.FreshStoreIsEmpty | CryptoTracker/Managers/FavoritesManager.swift:17-19 | with nothing stored under the key, the favourites are the empty list and no id is a favourite |
| Favorites.IsFavorite | CryptoTracker/Managers/FavoritesManager.swift:21-23 | an id is a favourite exactly when it is an element of the stored list |
| Favorites.Add | CryptoTracker/Managers/FavoritesManager.swift:25-31 | an absent id is appended at the end with every earlier element in place; a present id leaves the store untouched; afterwards the id is a favourite |
| Favorites.AddIdempotent | CryptoTracker/Managers/FavoritesManager.swift:25-31 | adding an id twice gives the same store as adding it once |
| Favorites.Remove | CryptoTracker/Managers/FavoritesManager.swift:33-39 | a present id loses its first occurrence only; an absent id leaves the store untouched |
| Favorites.RemoveIdempotent | CryptoTracker/Managers/FavoritesManager.swift:33-39 | on a duplicate-free store one remove clears the id, so a second remove changes nothing |
| Favorites.AddPreservesValid | CryptoTracker/Managers/FavoritesManager.swift:25-31 | `add` keeps the list free of duplicate ids |
| Favorites.RemovePreservesValid | CryptoTracker/Managers/FavoritesManager.swift:33-39 | `remove` keeps the list free of duplicate ids |
| Favorites.TogglePreservesValid | CryptoTracker/Managers/FavoritesManager.swift:41-43 | `toggle` keeps the list free of duplicate ids |
| Favorites.Toggle | CryptoTracker/Managers/FavoritesManager.swift:41-43 | a listed id loses its first occurrence; an unlisted id is appended at the end |
| Favorites.ToggleFlips | CryptoTracker/Managers/FavoritesManager.swift:41-43 | on a duplicate-free store, toggling an id negates its membership |
| Favorites.ToggleKeepsOthers | CryptoTracker/Managers/FavoritesManager.swift:41-43 | toggling one id leaves every other id's membership as it was |
| Favorites.ToggleTwiceRestoresAbsent | CryptoTracker/Managers/FavoritesManager.swift:25-43 | toggling an absent id twice gives back exactly the original list |
| Favorites.ToggleTwiceMovesPresent | CryptoTracker/Managers/FavoritesManager.swift:25-43 | on a duplicate-free store, toggling a listed id twice moves it from its position to the end of the list |
| Favorites.ToggleWithDuplicateKeepsFavorite | CryptoTracker/Managers/FavoritesManager.swift:33-43 | whenever an id is listed at two positions, a toggle removes only its first copy and the id stays a favourite, so the flip needs the invariant |
| Domain.Cache.Load | CryptoTracker/Services/CacheService.swift:32-42 | a missing file loads as nothing; a present one loads as exactly the stored list |
| Domain.Cache.Save | CryptoTracker/Services/CacheService.swift:22-30 | after a save, a load returns exactly the saved list |
| Domain.Cache.Clear | CryptoTracker/Services/CacheService.swift:44-47 | after a clear, a load finds nothing |
| FavoritesList.LoadCacheIfNeeded | CryptoTracker/ViewModels/FavoritesListViewModel.swift:28-33 | with a cached list, the list becomes it and is flagged offline, nothing else changes; without one the state is untouched |
| FavoritesList.Init | CryptoTracker/ViewModels/FavoritesListViewModel.swift:17-33 | a cached list is shown and flagged offline; without one the list is empty and not offline; not loading, no error |
| FavoritesList.FetchFavorites | CryptoTracker/ViewModels/FavoritesListViewModel.swift:35-45 | with no favourites: empty list, cache deleted, no request, loading/error/offline untouched; otherwise: loading, error cleared, request for exactly the stored ids in order, list and cache untouched |
| FavoritesList.ReceiveValue | CryptoTracker/ViewModels/FavoritesListViewModel.swift:57-62 | the received coins are shown as live data and saved, so the cache loads them back; loading flag and error untouched |
| FavoritesList.ReceiveCompletion | CryptoTracker/ViewModels/FavoritesListViewModel.swift:47-56 | loading ends and the cache is untouched; `.finished` changes nothing else; a failure records the error and falls back to the cached list if there is one, else keeps list and offline flag |
| FavoritesList.Complete | CryptoTracker/ViewModels/FavoritesListViewModel.swift:47-62 | loading ends either way; success shows the coins as live data and saves them; failure records the error and falls back to the cache if there is one, else leaves list and offline flag as they were |
| FavoritesList.FailureFallsBackToLastSuccess | CryptoTracker/ViewModels/FavoritesListViewModel.swift:35-62 | after a successful refresh, a failing refresh shows exactly the coins of that success, flagged offline, with the error |
| FavoritesList.RelaunchShowsLastSuccess | CryptoTracker/ViewModels/FavoritesListViewModel.swift:22-33 | a new screen built from the cache a successful refresh saved shows those coins, flagged offline |
| FavoritesList.EmptyFavoritesNotUndoneByLateFailure | CryptoTracker/ViewModels/FavoritesListViewModel.swift:37-55 | once an empty favourites list has emptied the screen, a late failure from an older request leaves it empty |
| FavoritesList.LateSuccessOverwritesEmptiedList | CryptoTracker/ViewModels/FavoritesListViewModel.swift:37-62 | a late success from an older request overwrites the emptied screen and re-creates the cache |
| CryptoDetail.Period.RawValue | CryptoTracker/ViewModels/CryptoDetailViewModel.swift:65-68 | the labels are "1D", "1W", "1M", one per period and each naming exactly one period |
| CryptoDetail.Period.Days | CryptoTracker/ViewModels/CryptoDetailViewModel.swift:70-76 | the day counts are the decimal strings "1", "7", "30", one per period and each naming exactly one period |
| CryptoDetail.PeriodFromRawValue | CryptoTracker/ViewModels/CryptoDetailViewModel.swift:65-68 | the enum's synthesised `init(rawValue:)`, which no file of the app calls: a label parses to the period carrying it, and only labels of some period parse |
| CryptoDetail.PeriodMappingInjective | CryptoTracker/ViewModels/CryptoDetailViewModel.swift:65-77 | labels and day counts each tell the periods apart; label round-trips; segments in order have day counts 1, 7, 30 |
| CryptoDetail.Prices | CryptoTracker/ViewModels/CryptoDetailViewModel.swift:57 | the price series has one entry per sample, the second component of each, in order |
| CryptoDetail.Timestamps | CryptoTracker/ViewModels/CryptoDetailViewModel.swift:58-60 | the timestamp series has one entry per sample, its first component divided by 1000, in order |
| CryptoDetail.SeriesAlignWithSamples | CryptoTracker/ViewModels/CryptoDetailViewModel.swift:57-60 | the i-th timestamp and price rebuild the first two components of the i-th sample |
| CryptoDetail.Init | CryptoTracker/ViewModels/CryptoDetailViewModel.swift:23-28 | the favourite flag equals store membership of the id, or of "" without one; series empty; a detail request is issued exactly when the coin has an id |
| CryptoDetail.FetchDetails | CryptoTracker/ViewModels/CryptoDetailViewModel.swift:30-33 | without an id nothing changes and nothing is requested; otherwise loading is raised and the id is requested |
| CryptoDetail.CompleteDetails | CryptoTracker/ViewModels/CryptoDetailViewModel.swift:35-42 | loading ends; success replaces the coin; failure keeps the shown coin and records the error; series and favourite flag untouched |
| CryptoDetail.DetailsReplaceOrKeepSummary | CryptoTracker/ViewModels/CryptoDetailViewModel.swift:23-44 | a screen opened on a coin with an id requests its detail; a success shows the full record, a failure keeps the summary coin and shows the error; loading ends and the favourite flag stays as read at construction |
| CryptoDetail.FetchHistory | CryptoTracker/ViewModels/CryptoDetailViewModel.swift:46-49 | loading raised, error cleared, request for the coin id (or "") with the period's day count; series untouched |
| CryptoDetail.CompleteHistory | CryptoTracker/ViewModels/CryptoDetailViewModel.swift:51-61 | loading ends; success replaces both series with equal-length projections of the samples; failure keeps both series and records the error |
| CryptoDetail.ToggleFavorite | CryptoTracker/ViewModels/CryptoDetailViewModel.swift:79-83 | without an id nothing changes; otherwise the store toggles the id and the flag is read back from the store |
| CryptoDetail.ToggleFavoriteFlips | CryptoTracker/ViewModels/CryptoDetailViewModel.swift:79-83 | on a duplicate-free store the flag ends as the negation of prior membership and the store stays duplicate-free |
| CryptoDetail.LoadingFlagSharedByRequests | CryptoTracker/ViewModels/CryptoDetailViewModel.swift:32-52 | a chart completion clears the one loading flag while the detail request is still outstanding |
| CryptoDetail.LateHistoryResponseWins | CryptoTracker/ViewModels/CryptoDetailViewModel.swift:46-61 | the two requests ask for day counts "1" then "7"; with no period guard, the response that arrives last sets the series, even when it answers the first request |

## Left out

- Network transport, URL construction and JSON decoding (`NetworkService`, `CryptoService`). Responses are abstract `Result` values. The transport error is kept only as a description string.
- Domain.Cache.Save: save and clear are assumed to succeed. In the code, `save` returns silently when there is no documents folder and swallows encode and write errors, and `clear` ignores a failed delete. The JSON encode and decode of a coin list is assumed to round-trip without loss. `FavoritesList.FailureFallsBackToLastSuccess` and `FavoritesList.RelaunchShowsLastSuccess` rest on these assumptions.
- Favorites.IsFavorite: ids are compared code point by code point. Swift compares `String`s by Unicode canonical equivalence, so two differently encoded forms of one accented id count as equal there but not here. The two comparisons agree on the ASCII ids the API returns. The same holds for `Favorites.Add`, `Favorites.Remove`, `Sequences.Contains` and `Sequences.FirstIndex`.
- File-system I/O of `CacheService`. The cache file is an abstract optional list. A failed read is the same as a missing file, as in the code.
- `CryptoCurrency` is not part of this model. `Coin` carries the optional id, which is the only field any decision reads, plus a few fields passed along unchanged.
- Prices and timestamps are `real`. The rounding of Swift `Double`s, including in the division by 1000, is not modelled.
- `CompleteHistory` requires every chart sample to have at least two components. The success handler traps on a shorter sample, so no state after that case exists to model.
- Combine subscriptions, `[weak self]` release of the view-model, and the main-queue hop. Each delivery is one transition, applied in arrival order.
- The `FavoritesManager.shared` singleton. The store is passed in and returned explicitly, so changes made by another screen appear as a different store value.
- UIKit views, navigation and the main list screen (`MainListViewModel` and `CryptoServiceProtocol` are stubs, with nothing to model).
