/**
 * ml/ml_app.py: the `GET /analyze/{ticker}` handler, a check-then-insert
 * cache over the `sentiments` collection keyed by the exact ticker string.
 * The collection is the map from ticker to the stored result; what the two
 * driver calls did is an input.
 */
module MlApp {

  /** One mock headline. */
  datatype NewsItem = NewsItem(title: string, summary: string)

  /** The float `0.42`, kept opaque. */
  datatype Score = MockScore

  /** The result dict the handler stores and returns. */
  datatype SentimentResult = SentimentResult(ticker: string, sentimentScore: Score, news: seq<NewsItem>)

  datatype Source = Cache | Fresh

  /**
   * `{"source": ..., **result}`, or the 500 the framework answers when a
   * PyMongoError escapes the handler, which has no `try`.
   */
  datatype Response =
    | Response(source: Source, result: SentimentResult)
    | InternalServerError

  /** What `find_one` did: returned (the lookup then reads the collection) or raised. */
  datatype FindOutcome = FindReturned | FindRaised(message: string)

  /**
   * What `insert_one` did: returned, or raised a PyMongoError after the
   * server had or had not applied the write (`written`).
   */
  datatype InsertOutcome = InsertReturned | InsertRaised(message: string, written: bool)

  /** The mock sentiment logic. */
  function MockSentiment(ticker: string): (r: SentimentResult)
    ensures r.ticker == ticker
  {
    SentimentResult(ticker, MockScore, [NewsItem("Dummy headline", "This is a mock summary.")])
  }

  /** The `sentiments` collection. */
  class SentimentCache {
    var store: map<string, SentimentResult>

    /** Every stored result carries the ticker it is stored under. */
    ghost predicate Valid()
      reads this
    {
      forall t :: t in store ==> store[t].ticker == t
    }

    constructor ()
      ensures store == map[] && Valid()
    {
      store := map[];
    }

    /**
     * `analyze(ticker)`; `find` and `insert` say what the two driver calls
     * did.  A PyMongoError from either escapes as a 500; a failed
     * `insert_one` may or may not have stored the entry.
     */
    method Analyze(ticker: string, find: FindOutcome, insert: InsertOutcome) returns (response: Response)
      modifies this
      ensures find.FindRaised? ==> response == InternalServerError && store == old(store)
      ensures find.FindReturned? && ticker in old(store) ==>
        response == Response(Cache, old(store)[ticker]) && store == old(store)
      ensures find.FindReturned? && ticker !in old(store) && insert.InsertReturned? ==>
        response == Response(Fresh, MockSentiment(ticker))
        && store == old(store)[ticker := MockSentiment(ticker)]
      ensures find.FindReturned? && ticker !in old(store) && insert.InsertRaised? ==>
        response == InternalServerError
        && store == if insert.written then old(store)[ticker := MockSentiment(ticker)] else old(store)
      ensures response.Response? ==> ticker in store && response.result == store[ticker]
      ensures forall t :: t != ticker ==> (t in store <==> t in old(store))
      ensures forall t :: t != ticker && t in store ==> store[t] == old(store)[t]
      ensures old(Valid()) ==> Valid() && (response.Response? ==> response.result.ticker == ticker)
    {
      if find.FindRaised? {
        return InternalServerError;
      }
      if ticker in store {
        return Response(Cache, store[ticker]);
      }
      var result := MockSentiment(ticker);
      if insert.InsertRaised? {
        if insert.written {
          store := store[ticker := result];
        }
        return InternalServerError;
      }
      store := store[ticker := result];
      return Response(Fresh, result);
    }
  }

  /**
   * A second request for a ticker whose first request was answered is served
   * from the cache with the same result, once `find_one` returns.
   */
  method AnalyzeTwice(cache: SentimentCache, ticker: string, firstInsert: InsertOutcome)
    returns (first: Response, second: Response)
    modifies cache
    ensures first.Response? ==> second == Response(Cache, first.result)
    ensures ticker !in old(cache.store) && first.Response? ==> first.source == Fresh
  {
    first := cache.Analyze(ticker, FindReturned, firstInsert);
    second := cache.Analyze(ticker, FindReturned, InsertReturned);
  }

  /** Keys are case-sensitive: "aapl" and "AAPL" get separate entries. */
  method CaseSensitiveKeys(cache: SentimentCache) returns (lower: Response, upper: Response)
    modifies cache
    requires cache.store == map[]
    ensures lower == Response(Fresh, MockSentiment("aapl")) && upper == Response(Fresh, MockSentiment("AAPL"))
    ensures lower.result.ticker == "aapl" && upper.result.ticker == "AAPL"
    ensures cache.store.Keys == {"aapl", "AAPL"}
  {
    lower := cache.Analyze("aapl", FindReturned, InsertReturned);
    upper := cache.Analyze("AAPL", FindReturned, InsertReturned);
  }
}
