/** The values the view-models exchange with their collaborators: coins,
    network errors, chart payloads and the on-disk list cache. */
module Domain {
  import opened Wrappers

  /** The four ways a request can fail. The wrapped transport error is kept
      only as its description. */
  datatype NetworkError = InvalidUrl | DecodingError | Network(cause: string) | Unknown

  /** A `CryptoCurrency` record. Only `id` drives any decision in the
      view-models; the other fields are carried along unchanged. */
  datatype Coin = Coin(
    id: Option<string>,
    name: Option<string>,
    symbol: Option<string>,
    currentPrice: Option<real>)

  /** A `market_chart` response: each sample is `[msTimestamp, price]` as decoded
      from JSON, so nothing guarantees its length. */
  datatype ChartData = ChartData(prices: seq<seq<real>>)

  /** A `CacheService<CryptoCurrency>` file: absent, or holding the last list
      saved. Read and write failures are swallowed by the service, so a failed
      load looks exactly like an absent file. */
  datatype Cache = Cache(file: Option<seq<Coin>>) {

    /** Reads the file back: nothing when it is absent, otherwise the stored
        list without loss. */
    function Load(): (r: Option<seq<Coin>>)
      ensures r.None? <==> file.None?
      ensures r.Some? ==> Cache(Some(r.value)) == this
    {
      file
    }

    /** Overwrites the file; the next load returns exactly the saved list. */
    function Save(coins: seq<Coin>): (c: Cache)
      ensures c.Load() == Some(coins)
    {
      Cache(Some(coins))
    }

    /** Deletes the file; the next load finds nothing. */
    function Clear(): (c: Cache)
      ensures c.Load().None?
    {
      Cache(None)
    }
  }
}
