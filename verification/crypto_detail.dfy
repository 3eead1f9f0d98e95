/** `CryptoDetailViewModel`: one coin's detail screen. It holds the coin
    (replaced by the full record once `fetchDetails` succeeds), a price series
    for the chosen period, one loading flag and one error slot shared by both
    requests, and a favourite flag read back from the favourites store. */
module CryptoDetail {
  import opened Wrappers
  import opened Domain
  import opened Favorites

  /** The chart window the user picks; `RawValue` is the segment label and
      `Days` the `days` query parameter of the chart request. */
  datatype Period = Day | Week | Month {

    /** The segment label; each period has its own. */
    function RawValue(): (r: string)
      ensures (r == "1D") <==> this == Day
      ensures (r == "1W") <==> this == Week
      ensures (r == "1M") <==> this == Month
    {
      match this
      case Day => "1D"
      case Week => "1W"
      case Month => "1M"
    }

    /** The chart window as a decimal day count; each period has its own. */
    function Days(): (d: string)
      ensures |d| > 0 && forall k :: 0 <= k < |d| ==> '0' <= d[k] <= '9'
      ensures (d == "1") <==> this == Day
      ensures (d == "7") <==> this == Week
      ensures (d == "30") <==> this == Month
    {
      match this
      case Day => "1"
      case Week => "7"
      case Month => "30"
    }
  }

  /** `Period.allCases`, in declaration order: the segments left to right. */
  const AllCases: seq<Period> := [Day, Week, Month]

  /** `Period(rawValue:)`: the period whose label is `s`, if any. */
  function PeriodFromRawValue(s: string): (r: Option<Period>)
    ensures r.Some? ==> r.value.RawValue() == s
    ensures r.None? ==> forall p: Period :: p.RawValue() != s
  {
    if s == "1D" then Some(Day)
    else if s == "1W" then Some(Week)
    else if s == "1M" then Some(Month)
    else None
  }

  datatype State = State(
    crypto: Coin,
    priceHistory: seq<real>,
    timestamps: seq<real>,
    error: Option<NetworkError>,
    isLoading: bool,
    isFavorite: bool)

  /** A chart request: coin id and day count. */
  datatype ChartRequest = ChartRequest(coinId: string, days: string)

  /** The state after `fetchDetails` returns, and the coin id it asked for, if any. */
  datatype DetailsFetch = DetailsFetch(state: State, request: Option<string>)

  /** The state after `fetchHistory` returns, and the request it issued. */
  datatype HistoryFetch = HistoryFetch(state: State, request: ChartRequest)

  /** The state and the favourites store after `toggleFavorite`. */
  datatype Toggled = Toggled(state: State, store: Store)

  /** Every sample has a price component; the success handler indexes `[1]`
      on each sample and traps on a shorter one. */
  ghost predicate WellFormed(chart: ChartData) {
    forall i :: 0 <= i < |chart.prices| ==> |chart.prices[i]| >= 2
  }

  /** The price series: the second component of every sample, in order. */
  function Prices(samples: seq<seq<real>>): (r: seq<real>)
    requires forall i :: 0 <= i < |samples| ==> |samples[i]| >= 2
    ensures |r| == |samples|
    ensures forall i :: 0 <= i < |r| ==> r[i] == samples[i][1]
  {
    if |samples| == 0 then []
    else [samples[0][1]] + Prices(samples[1..])
  }

  /** The timestamp series: the first component of every sample, a count of
      milliseconds, divided by 1000 into seconds. Building a date from it
      cannot fail, so no sample is dropped. */
  function Timestamps(samples: seq<seq<real>>): (r: seq<real>)
    requires forall i :: 0 <= i < |samples| ==> |samples[i]| >= 1
    ensures |r| == |samples|
    ensures forall i :: 0 <= i < |r| ==> r[i] == samples[i][0] / 1000.0
  {
    if |samples| == 0 then []
    else [samples[0][0] / 1000.0] + Timestamps(samples[1..])
  }

  /** `fetchDetails`: without an id nothing happens; otherwise the loading
      flag goes up and the coin's detail is requested. The error is left as is. */
  function FetchDetails(s: State): (r: DetailsFetch)
    ensures s.crypto.id.None? ==> r.state == s && r.request.None?
    ensures s.crypto.id.Some? ==> r.state == s.(isLoading := true) && r.request == s.crypto.id
  {
    match s.crypto.id
    case None => DetailsFetch(s, None)
    case Some(id) => DetailsFetch(s.(isLoading := true), Some(id))
  }

  /** `init`: the summary coin, an empty series, the favourite flag read from
      the store (an id-less coin is looked up as ""), then `fetchDetails`. */
  function Init(crypto: Coin, store: Store): (r: DetailsFetch)
    ensures r.state.crypto == crypto
    ensures r.state.isFavorite <==> crypto.id.GetOr("") in GetFavorites(store)
    ensures r.state.priceHistory == [] && r.state.timestamps == [] && r.state.error.None?
    ensures r.state.isLoading <==> crypto.id.Some?
    ensures r.request == crypto.id
  {
    FetchDetails(State(crypto, [], [], None, false, IsFavorite(store, crypto.id.GetOr(""))))
  }

  /** Delivery of the detail response: a success replaces the coin, a failure
      keeps the one shown and records the error; both drop the shared flag. */
  function CompleteDetails(s: State, result: Result<Coin, NetworkError>): (s': State)
    ensures !s'.isLoading
    ensures s'.priceHistory == s.priceHistory && s'.timestamps == s.timestamps
    ensures s'.isFavorite == s.isFavorite
    ensures result.Success? ==> s'.crypto == result.value && s'.error == s.error
    ensures result.Failure? ==> s'.crypto == s.crypto && s'.error == Some(result.error)
  {
    match result
    case Success(details) => s.(crypto := details).(isLoading := false)
    case Failure(err) => s.(isLoading := false).(error := Some(err))
  }

  /** `fetchHistory(period:)`: raise the shared flag, clear the error and ask
      for the period's day count (an id-less coin is requested as ""). */
  function FetchHistory(s: State, period: Period): (r: HistoryFetch)
    ensures r.state.isLoading && r.state.error.None?
    ensures r.state.crypto == s.crypto && r.state.isFavorite == s.isFavorite
    ensures r.state.priceHistory == s.priceHistory && r.state.timestamps == s.timestamps
    ensures r.request.days == period.Days()
    ensures s.crypto.id.Some? ==> r.request.coinId == s.crypto.id.value
    ensures s.crypto.id.None? ==> r.request.coinId == ""
  {
    HistoryFetch(s.(isLoading := true, error := None),
                 ChartRequest(s.crypto.id.GetOr(""), period.Days()))
  }

  /** Delivery of a chart response: a success replaces both series, a failure
      keeps them and records the error; both drop the shared flag. There is
      no check that the response belongs to the latest period asked for. */
  function CompleteHistory(s: State, result: Result<ChartData, NetworkError>): (s': State)
    requires result.Success? ==> WellFormed(result.value)
    ensures !s'.isLoading
    ensures s'.crypto == s.crypto && s'.isFavorite == s.isFavorite
    ensures result.Success? ==>
      && |s'.priceHistory| == |result.value.prices|
      && |s'.timestamps| == |s'.priceHistory|
      && (forall i :: 0 <= i < |s'.priceHistory| ==> s'.priceHistory[i] == result.value.prices[i][1])
      && (forall i :: 0 <= i < |s'.timestamps| ==> s'.timestamps[i] * 1000.0 == result.value.prices[i][0])
      && s'.error == s.error
    ensures result.Failure? ==>
      && s'.priceHistory == s.priceHistory
      && s'.timestamps == s.timestamps
      && s'.error == Some(result.error)
  {
    match result
    case Success(chart) =>
      s.(priceHistory := Prices(chart.prices), timestamps := Timestamps(chart.prices)).(isLoading := false)
    case Failure(err) => s.(isLoading := false).(error := Some(err))
  }

  /** `toggleFavorite`: without an id nothing happens; otherwise the store
      toggles the id and the flag is read back from the store. */
  function ToggleFavorite(s: State, store: Store): (r: Toggled)
    ensures s.crypto.id.None? ==> r.state == s && r.store == store
    ensures s.crypto.id.Some? ==>
      && r.store == Toggle(store, s.crypto.id.value)
      && r.state == s.(isFavorite := IsFavorite(r.store, s.crypto.id.value))
  {
    match s.crypto.id
    case None => Toggled(s, store)
    case Some(id) =>
      var store' := Toggle(store, id);
      Toggled(s.(isFavorite := IsFavorite(store', id)), store')
  }

  /** The labels and the day counts each tell the periods apart, and the
      segments read "1D", "1W", "1M" left to right. */
  lemma PeriodMappingInjective(p: Period, q: Period)
    ensures p.RawValue() == q.RawValue() ==> p == q
    ensures p.Days() == q.Days() ==> p == q
    ensures PeriodFromRawValue(p.RawValue()) == Some(p)
    ensures |AllCases| == 3
    ensures AllCases[0].Days() == "1" && AllCases[1].Days() == "7" && AllCases[2].Days() == "30"
  {
  }

  /** The two series rebuild the first two components of every sample: the
      price projection and the timestamp projection stay aligned. */
  lemma {:induction false} SeriesAlignWithSamples(samples: seq<seq<real>>, i: nat)
    requires forall k :: 0 <= k < |samples| ==> |samples[k]| >= 2
    requires i < |samples|
    ensures i < |Prices(samples)| && i < |Timestamps(samples)|
    ensures [Timestamps(samples)[i] * 1000.0, Prices(samples)[i]] == samples[i][..2]
  {
    var t := Timestamps(samples)[i];
    assert t == samples[i][0] / 1000.0;
    assert t * 1000.0 == samples[i][0];
  }

  /** On a valid store, toggling flips the store's membership of the coin,
      so a flag that was in step with the store is negated. */
  lemma ToggleFavoriteFlips(s: State, store: Store)
    requires s.crypto.id.Some? && Valid(store)
    ensures var r := ToggleFavorite(s, store);
      && r.state.isFavorite == !IsFavorite(store, s.crypto.id.value)
      && Valid(r.store)
      && (s.isFavorite == IsFavorite(store, s.crypto.id.value) ==> r.state.isFavorite == !s.isFavorite)
  {
    ToggleFlips(store, s.crypto.id.value);
    TogglePreservesValid(store, s.crypto.id.value);
  }

  /** One flag serves both requests: a chart response clears it while the
      detail request issued first is still outstanding. */
  lemma LoadingFlagSharedByRequests(s: State, period: Period, result: Result<ChartData, NetworkError>)
    requires s.crypto.id.Some?
    requires result.Success? ==> WellFormed(result.value)
    ensures var d := FetchDetails(s);
      && d.request.Some?
      && !CompleteHistory(FetchHistory(d.state, period).state, result).isLoading
  {
  }

  /** Responses are applied in arrival order, whatever period is selected:
      when the day chart arrives after the week chart that replaced it, the
      day chart is what the screen ends up showing. */
  lemma LateHistoryResponseWins(s: State, first: ChartData, second: ChartData)
    requires WellFormed(first) && WellFormed(second)
    ensures FetchHistory(s, Day).request.days == "1"
    ensures FetchHistory(FetchHistory(s, Day).state, Week).request.days == "7"
    ensures var asked := FetchHistory(FetchHistory(s, Day).state, Week).state;
      var shown := CompleteHistory(CompleteHistory(asked, Success(second)), Success(first));
      && shown.priceHistory == Prices(first.prices)
      && shown.timestamps == Timestamps(first.prices)
  {
  }

  /** A failed detail request degrades gracefully: the screen keeps the
      summary coin it was opened with and shows the error; a successful one
      shows the full record. Either way the favourite flag read at
      construction stays. */
  lemma DetailsReplaceOrKeepSummary(crypto: Coin, store: Store, result: Result<Coin, NetworkError>)
    requires crypto.id.Some?
    ensures var start := Init(crypto, store);
      var shown := CompleteDetails(start.state, result);
      && start.request == crypto.id
      && start.state.isLoading
      && !shown.isLoading
      && shown.isFavorite == IsFavorite(store, crypto.id.value)
      && (result.Success? ==> shown.crypto == result.value && shown.error.None?)
      && (result.Failure? ==> shown.crypto == crypto && shown.error == Some(result.error))
  {
  }
}
