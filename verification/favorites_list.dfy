/** `FavoritesListViewModel`: the favourites screen's list, seeded from its
    cache and refreshed by one batch-by-ids request per `fetchFavorites`.
    Each request is a pair of transitions: `FetchFavorites` issues it and
    `Complete` applies its result on the main queue. */
module FavoritesList {
  import opened Wrappers
  import opened Domain
  import opened Favorites

  /** The published fields plus the view-model's own cache file. */
  datatype State = State(
    cryptos: seq<Coin>,
    isLoading: bool,
    error: Option<NetworkError>,
    isOfflineData: bool,
    cache: Cache)

  /** How a Combine subscription ends. */
  datatype Completion = Finished | Failed(err: NetworkError)

  /** The state after `fetchFavorites` returns, and the ids of the request it
      issued, if any. */
  datatype Fetch = Fetch(state: State, request: Option<seq<string>>)

  /** Shows the cached list, flagged as offline data, when there is one. */
  function LoadCacheIfNeeded(s: State): (s': State)
    ensures s.cache.Load().Some? ==> s' == s.(cryptos := s.cache.Load().value, isOfflineData := true)
    ensures s.cache.Load().None? ==> s' == s
  {
    match s.cache.Load()
    case Some(cached) => s.(cryptos := cached, isOfflineData := true)
    case None => s
  }

  /** `init`: default field values, then `loadCacheIfNeeded`. */
  function Init(cache: Cache): (s: State)
    ensures cache.Load().Some? ==> s.cryptos == cache.Load().value && s.isOfflineData
    ensures cache.Load().None? ==> s.cryptos == [] && !s.isOfflineData
    ensures !s.isLoading && s.error.None? && s.cache == cache
  {
    LoadCacheIfNeeded(State([], false, None, false, cache))
  }

  /** `fetchFavorites` up to the point the request is in flight. With no
      favourites it empties the list and deletes the cache without a request;
      otherwise it raises the loading flag and asks for exactly the stored ids. */
  function FetchFavorites(s: State, store: Store): (r: Fetch)
    ensures GetFavorites(store) == [] ==>
      && r.request.None?
      && r.state.cryptos == []
      && r.state.cache.Load().None?
      && r.state.isLoading == s.isLoading
      && r.state.error == s.error
      && r.state.isOfflineData == s.isOfflineData
    ensures GetFavorites(store) != [] ==>
      && r.request == Some(GetFavorites(store))
      && r.state.isLoading
      && r.state.error.None?
      && r.state.cryptos == s.cryptos
      && r.state.isOfflineData == s.isOfflineData
      && r.state.cache == s.cache
  {
    var ids := GetFavorites(store);
    if ids == [] then
      Fetch(s.(cryptos := [], cache := s.cache.Clear()), None)
    else
      Fetch(s.(isLoading := true, error := None), Some(ids))
  }

  /** The `receiveValue` handler: show the coins as live data and save them. */
  function ReceiveValue(s: State, coins: seq<Coin>): (s': State)
    ensures s'.cryptos == coins && !s'.isOfflineData
    ensures s'.cache.Load() == Some(coins)
    ensures s'.isLoading == s.isLoading && s'.error == s.error
  {
    s.(cryptos := coins, isOfflineData := false, cache := s.cache.Save(coins))
  }

  /** The `receiveCompletion` handler: drop the loading flag; on failure record
      the error and fall back to the cached list if there is one. */
  function ReceiveCompletion(s: State, c: Completion): (s': State)
    ensures !s'.isLoading && s'.cache == s.cache
    ensures c.Finished? ==> s' == s.(isLoading := false)
    ensures c.Failed? ==> s'.error == Some(c.err)
    ensures c.Failed? && s.cache.Load().Some? ==> s'.cryptos == s.cache.Load().value && s'.isOfflineData
    ensures c.Failed? && s.cache.Load().None? ==> s'.cryptos == s.cryptos && s'.isOfflineData == s.isOfflineData
  {
    var s1 := s.(isLoading := false);
    match c
    case Finished => s1
    case Failed(err) =>
      var s2 := s1.(error := Some(err));
      match s2.cache.Load()
      case Some(cached) => s2.(cryptos := cached, isOfflineData := true)
      case None => s2
  }

  /** Delivery of one request's result: a success is a value followed by
      `.finished`, a failure is `.failure` alone. */
  function Complete(s: State, result: Result<seq<Coin>, NetworkError>): (s': State)
    ensures !s'.isLoading
    ensures result.Success? ==>
      && s'.cryptos == result.value
      && !s'.isOfflineData
      && s'.cache.Load() == Some(result.value)
      && s'.error == s.error
    ensures result.Failure? ==>
      && s'.error == Some(result.error)
      && s'.cache == s.cache
      && (s.cache.Load().Some? ==> s'.cryptos == s.cache.Load().value && s'.isOfflineData)
      && (s.cache.Load().None? ==> s'.cryptos == s.cryptos && s'.isOfflineData == s.isOfflineData)
  {
    match result
    case Success(coins) => ReceiveCompletion(ReceiveValue(s, coins), Finished)
    case Failure(err) => ReceiveCompletion(s, Failed(err))
  }

  /** One full refresh: issue the request and, if one was issued, deliver its result. */
  function Refresh(s: State, store: Store, result: Result<seq<Coin>, NetworkError>): State {
    var f := FetchFavorites(s, store);
    if f.request.Some? then Complete(f.state, result) else f.state
  }

  /** A successful refresh is remembered: when the next refresh fails, the
      screen falls back to exactly the coins of the last success, flagged
      offline. */
  lemma FailureFallsBackToLastSuccess(s: State, store: Store, coins: seq<Coin>, err: NetworkError)
    requires GetFavorites(store) != []
    ensures var s2 := Refresh(Refresh(s, store, Success(coins)), store, Failure(err));
      && s2.cryptos == coins
      && s2.isOfflineData
      && s2.error == Some(err)
      && !s2.isLoading
  {
  }

  /** The list saved by a successful refresh is what the next launch shows
      before any request completes. */
  lemma RelaunchShowsLastSuccess(s: State, store: Store, coins: seq<Coin>)
    requires GetFavorites(store) != []
    ensures Init(Refresh(s, store, Success(coins)).cache).cryptos == coins
    ensures Init(Refresh(s, store, Success(coins)).cache).isOfflineData
  {
  }

  /** An empty favourites list is authoritative: once it has emptied the
      screen, a failing response to an older request finds no cache to fall
      back to, so the screen stays empty. */
  lemma EmptyFavoritesNotUndoneByLateFailure(s: State, store: Store, err: NetworkError)
    requires GetFavorites(store) == []
    ensures Complete(FetchFavorites(s, store).state, Failure(err)).cryptos == []
  {
  }

  /** There is no single-flight guard: a successful response to an older
      request that arrives after the list was emptied overwrites it and
      re-creates the cache. */
  lemma LateSuccessOverwritesEmptiedList(s: State, store: Store, coins: seq<Coin>)
    requires GetFavorites(store) == []
    ensures Complete(FetchFavorites(s, store).state, Success(coins)).cryptos == coins
    ensures Complete(FetchFavorites(s, store).state, Success(coins)).cache.Load() == Some(coins)
  {
  }
}
