# A verified model of the galaxy news-and-sentiment services

The repository runs three small services around a MongoDB database: an LLM
service that fetches stock news from the Tickertick feed, asks an agent for a
structured verdict and stores it as an article; an ML service that answers
sentiment requests from a cache collection; and a web front end. This project
models their sequential core in Dafny and proves what it promises:

- `llm/tool.py` (module `Tool`): the feed client. `get_feed` grows its URL
  one query parameter at a time. On status 200 it rewrites each story's
  epoch-millisecond `time` field, in place, into a naive UTC
  `YYYY-MM-DDTHH:MM:SS` string, followed by `.ffffff` when the instant is not
  a whole second. The helpers build the feed's query language
  (`z:`, `tt:`, `s:`, `T:curated`, `E:`, `(or ...)`). `search_tickers` always
  sends `&n=`.
- `common/models.py` (module `Models`, with the generic stable sort in
  `Sorting`): `create_article` upper-cases the ticker.
  `get_articles_by_ticker` filters on the upper-cased ticker and sorts newest
  first. `format_article` rewrites a dict in place. The `MongoDBConnection`
  singleton publishes its one instance and takes the database name from the
  last `/`-segment of the URI.
- `llm/llm_app.py` (module `LlmApp`): `POST /analyze/{ticker}`. It calls the
  analyser, builds and inserts the article and answers 202, with its three
  kinds of 500. The "no inserted id" HTTPException is caught again by the
  generic handler.
- `ml/ml_app.py` (module `MlApp`): `GET /analyze/{ticker}`, a
  check-then-insert cache keyed by the exact ticker string. A PyMongoError
  from either driver call is not caught and becomes a 500.

Support modules: `Wrappers` holds `Option`. `Strings` models the
parts of Python's `str` the code uses: `str(int)`, `%0Nd`, ASCII
`upper`/`lower`, `replace`, `join` and `split`, each with its inverse or its
law. `Calendar` models proleptic-Gregorian day counting for
`datetime.utcfromtimestamp`, `isoformat` and `fromisoformat`.

The inputs are modelled as parameters:

- the HTTP exchange: status code, plus the decoded body, or None when it is
  not JSON;
- the analyser's outcome;
- what `insert_one` did in the LLM service (including whether a failing
  `insert_one` had already been applied by the server), and what `find_one` and
  `insert_one` did in the ML service;
- whether the MongoDB driver creates a client for a URI, and whether it
  then accepts the database name;
- the `MONGO_URI` environment variable;
- the wall clock.

The stored collections are state: a sequence of documents for `articles`, a
map from ticker to result for `sentiments`. A document is kept as BSON keeps
it, with its dates cut to whole milliseconds.

Where the repository's tests and its code disagree, the model follows the code:

- `create_article` stores the keys `title` and `body`
  (common/models.py:46-48). The tests expect `overall_sentiment` and `analysis`.
- `format_article` calls plain `isoformat()` on a naive datetime, so no
  `+00:00` suffix is added (common/models.py:72).

## Model

| member | source | states |
|---|---|---|
| Tool.ConvertStory | llm/tool.py:34-36 | A story with `time` keeps its keys and every other field, and its new `time` is a string. Any other story is unchanged. |
| Tool.ConvertedTimeReadsBack | llm/tool.py:34-36 | The new `time` string is read back by `fromisoformat` as a date-time whose epoch milliseconds are the old value and whose microseconds are whole milliseconds. |
| Tool.FirstFailure | llm/tool.py:33-36 | The index of the first story on which the loop raises: every earlier story converts cleanly. None exactly when no story raises. |
| Tool.ConvertStories | llm/tool.py:33-36 | The in-place loop over the stories array. It stops at the first story that raises. The stories before that one are rewritten and the rest are untouched. |
| Tool.ConvertTimestampMsToIso | llm/tool.py:31-37 | The result equals ConvertedResponse. A non-dict raises TypeError and a missing `stories` key raises KeyError. A story list is converted story by story. A dict or string in `stories` is iterated the way Python iterates it. |
| Tool.ConvertedResponseShape | llm/tool.py:33-37 | A successful conversion keeps the response's keys, every field but `stories`, and the story count and order. It changes only stories with a `time` key, and only that key, which becomes a string. Every other field of such a story keeps its value. |
| Tool.ErrorBody | llm/tool.py:29 | The error dict has the single key `error`. Its message starts with "API request failed with status code " and the rest parses back to the status code. With Strings.ParseIntOnlyCanonical, the rest is exactly `str(status_code)`. |
| Tool.ErrorBodyExample | llm/tests/test_tool.py:89-102 | Status 500 gives exactly `{"error": "API request failed with status code 500"}`. |
| Tool.BuildFeedUrl | llm/tool.py:16-22 | The URL grown with `+=` equals the feed URL, then `?`, then the parameters joined by `&`: `q=` always, `n=` only for a non-zero limit, `last=` only for a non-empty last id, in that order. |
| Tool.GetFeed | llm/tool.py:14-29 | Requests FeedRequestUrl, with `limit` 30 and no last id by default. On status 200 the decoded body is converted, and a non-JSON body raises. On any other status the error dict is returned. |
| Tool.DefaultFeedParams | llm/tool.py:14-19 | With the default limit and no last id, the parameters are `q=<query>` and `n=30`. |
| Tool.GetFeedDefaultsExample | llm/tests/test_tool.py:89-102 | `get_feed("test_query")` with its defaults against a 500 answer requests `q=test_query&n=30` and returns the error dict the test expects. |
| Tool.FeedRequestUrlParams | llm/tool.py:16-22 | Splitting the query string on `&` gives back exactly the parameters sent, in order, when the query and the last id contain no `&`. |
| Tool.AmpersandEntityExample | llm/tool.py:16-24 | The query is sent unencoded, so `get_entity_news("AT&T")` splits into `q=E:at`, a stray `t`, and `n=30`. |
| Tool.Quote | llm/tool.py:16-22 | The percent-encoded value holds no `&` and is at least as long as the value. |
| Tool.UnquoteQuote | llm/tool.py:16-22 | Decoding an encoded value gives the value back. |
| Tool.QuotedFeedRequestUrlParams | llm/tool.py:16-22 | With the query and last id encoded, splitting on `&` gives exactly the intended parameters for any query, `q` decodes to the query, and the last id is sent exactly when it is non-empty. |
| Tool.FeedParamsExamples | llm/tests/test_tool.py:66-88 | `q=test_query&n=10`, `q=test_query&n=10&last=last_123`. A zero limit and an empty last id add nothing. |
| Tool.ErrorStatusIgnoresBody | llm/tool.py:25-29 | For a non-200 status the outcome is the error dict, whatever the body, and no conversion happens. |
| Tool.SearchParamsJoin | llm/tool.py:74 | The search URL is the tickers URL, then `?`, then `p=<query>` and `n=<limit>` joined by `&`. |
| Tool.SearchTickers | llm/tool.py:72-79 | Always sends `n=`, even for limit 0, and `limit` is 5 by default. On status 200 the body is returned unconverted, and a non-JSON body raises. Otherwise the error dict is returned. |
| Tool.SearchTickersDefaultsExample | llm/tests/test_tool.py:216-227 | `search_tickers("Invalid query")` with its default sends `n=5` and, against a 500 answer, returns the error dict the test expects. |
| Tool.SearchTickersParams | llm/tool.py:74 | Splitting search_tickers' query string on `&` recovers its two parameters. |
| Tool.SingleTermQueriesRoundTrip | llm/tool.py:39-70 | ParseQuery reads back the `z:`, `tt:`, `s:` and `T:curated` queries as the value they were built from, and an `E:` query as the normalised entity. So no two builders produce the same query. |
| Tool.MultiTickerQueryRoundTrip | llm/tool.py:54-58 | For a non-empty ticker list in which no ticker contains a space, `(or tt:t1 tt:t2 ...)` is read back as that list, in order. |
| Tool.MultiTickerQueryExample | llm/tests/test_tool.py:156-159 | `["AAPL", "MSFT"]` gives `(or tt:AAPL tt:MSFT)`. |
| Tool.NormalizeEntitySpec | llm/tool.py:68 | A normalised entity has no spaces and no upper-case ASCII letters. Every space of the input becomes `_`. |
| Tool.NormalizeEntityAt | llm/tool.py:68 | Each character is lower-cased, and a space becomes `_`. |
| Tool.NormalizeEntityIdempotent | llm/tool.py:68 | Normalising twice is normalising once. |
| Tool.EntityQueryExample | llm/tests/test_tool.py:186-189 | "Elon Musk" gives `E:elon_musk`. |
| Tool.GetTickerNews | llm/tool.py:39-42 | Requests the feed for `z:<ticker>` with the caller's limit unchanged (30 by default) and no last id. |
| Tool.GetBroadTickerNews | llm/tool.py:44-47 | Requests the feed for `tt:<ticker>` with the caller's limit (30 by default) and no last id. |
| Tool.GetNewsFromSource | llm/tool.py:49-52 | Requests the feed for `s:<source>` with the caller's limit (30 by default) and no last id. |
| Tool.GetNewsForMultipleTickers | llm/tool.py:54-58 | Requests the feed for the `(or ...)` query with the caller's limit (30 by default) and no last id. |
| Tool.GetCuratedNews | llm/tool.py:60-63 | Requests the feed for `T:curated` with the caller's limit (30 by default) and no last id. |
| Tool.GetEntityNews | llm/tool.py:65-70 | Requests the feed for `E:` plus the normalised entity, with the caller's limit (30 by default) and no last id. |
| Tool.ConvertIntegerTime | llm/tool.py:34-36 | A story whose `time` is an in-range integer converts without error, and only its `time` changes, to the isoformat string of that instant. |
| Tool.ConvertTimeOnlyStory | llm/tool.py:34-36 | A story whose only field is an in-range integer `time` becomes one whose only field is the isoformat string of that instant. |
| Tool.FirstTimestampExample | llm/tests/test_tool.py:38-50 | 1633046400000 becomes "2021-10-01T00:00:00". |
| Tool.SecondTimestampExample | llm/tests/test_tool.py:38-50 | 1633132800000 becomes "2021-10-02T00:00:00". |
| Calendar.UtcFromTimestampMs | llm/tool.py:35-36 | Gives a date-time exactly when the instant lies in years 1 to 9999. That date-time's epoch milliseconds are the input, and its microseconds are whole milliseconds. |
| Calendar.EpochMsInverse | llm/tool.py:35-36 | Every date-time with whole milliseconds is what `utcfromtimestamp` gives for its own epoch milliseconds. |
| Calendar.FromOrdinal | llm/tool.py:36 | The civil date of a day number is a valid date whose day number is the input. |
| Calendar.FromOrdinalToOrdinal | llm/tool.py:36 | Every valid date is recovered from its day number. |
| Calendar.IsoFormatRoundTrip | common/models.py:72 | Reading back an isoformat string, with either separator, gives the same date-time. |
| Strings.IntToStringRoundTrip | llm/tool.py:29 | The decimal text of an integer, as an f-string renders it, parses back to the integer. |
| Strings.NatToStringParseNat | llm/tool.py:29 | Every digit string without a leading zero is the rendering of its own value. |
| Strings.ParseIntOnlyCanonical | llm/tool.py:29 | A text parses to an integer exactly when it is that integer's rendering, so the rendering is the only text for its value. |
| Models.TruncateToMillis | llm/llm_app.py:33 | A stored date keeps its day and clock and loses only the microseconds below a millisecond, so its epoch milliseconds are unchanged. |
| Models.StoredDateDecodes | llm/llm_app.py:33 | Decoding a stored date's millisecond count with `utcfromtimestamp` gives exactly the truncated date. |
| Models.AsStored | llm/llm_app.py:33 | A stored document has the same keys. Dates are cut to the millisecond and every other value is kept. |
| Models.AsStoredIdempotent | llm/llm_app.py:33 | Storing a document read back from the collection changes nothing. |
| Models.CreateArticle | common/models.py:39-51 | Exactly the keys ticker, title, summary, body and created_at. The ticker equals the argument up to case and has no lower-case ASCII letter. The other three arguments and the clock are stored unchanged. |
| Models.FindByTicker | common/models.py:58 | Keeps the documents matching the filter, each as often as the collection holds it, and nothing else. |
| Models.FindByTickerAppend | common/models.py:58 | The filter keeps collection order: the matches of a concatenation are those of the first part, then those of the second. |
| Sorting.InsertBy | common/models.py:58 | Inserting into a list sorted by descending key keeps it sorted, and adds the element to the multiset. |
| Sorting.SortBy | common/models.py:58 | The result is in descending key order and is a permutation of the input. |
| Models.ArticlesByTickerSpec | common/models.py:53-58 | The result holds exactly the documents whose ticker is the upper-cased argument, each as often as the collection holds it, with `created_at` non-increasing. |
| Models.ArticlesByTickerIgnoresCase | common/models.py:58 | Two tickers equal up to case, such as "aapl" and "AAPL", give the same list. |
| Models.CreatedArticleFound | common/models.py:44-58 | An article just created for a ticker is found by a query exactly when the query equals that ticker up to case. |
| Models.Dict.constructor | common/models.py:61 | A dict holds the given items. |
| Models.FormatArticle | common/models.py:60-74 | Rewrites the dict in place to Formatted of its old contents and returns that same dict. |
| Models.FormattedKeys | common/models.py:66-68 | After formatting there is no `_id` key. `id` is present exactly when `_id` or `id` was. No other key is added or removed. |
| Models.FormattedId | common/models.py:66-68 | `id` is `str` of the old `_id`, and is left as it was when there was no `_id`. |
| Models.FormattedCreatedAt | common/models.py:71-72 | A datetime `created_at` becomes a string that parses back to it. Any other `created_at` value is untouched. |
| Models.FormattedOthers | common/models.py:65-74 | Every field other than `_id`, `id` and `created_at` is unchanged. |
| Models.FormattedIdempotent | common/models.py:60-74 | Formatting a formatted article changes nothing. |
| Models.FormattedDatetimeExample | common/models.py:72 | 2023-01-01 12:00 becomes "2023-01-01T12:00:00", with no offset. |
| Models.LastSegment | common/models.py:28 | The result is a suffix of the URI that contains no `/`. When it is shorter than the URI, a `/` comes just before it. |
| Models.LastSegmentUnique | common/models.py:28 | Those properties determine the result uniquely, so LastSegment is `rsplit('/', 1)[-1]`. |
| Models.DatabaseNameExamples | common/models.py:24-28 | The default URI selects "mydb". `mongodb://mongodb:27017/stockDB` selects "stockDB". A URI without `/` is its own name. |
| Models.MongoDBConnection.constructor | common/models.py:13-19 | A new instance starts with no client and no database. |
| Models.MongoDBConnection.Connect | common/models.py:23-29 | Succeeds exactly when the client is created and the database lookup returns. A created client records the configured URI even when the lookup then raises. Success records the URI's last segment as the database; any failure leaves the database as it was. |
| Models.ConnectionClass.constructor | common/models.py:13 | The class starts with no instance. |
| Models.ConnectionClass.New | common/models.py:17-21 | The first call creates the instance, publishes it, then connects, once. If the client is created its URI is recorded; if either driver step raises, the call fails and the published instance has no database. Every later call returns the published instance without connecting again. |
| Models.ConstructTwice | common/models.py:17-21 | `_connect` runs once over two constructions. They return the same instance when both driver steps succeed; otherwise the first fails and the second returns the instance without a database. |
| LlmApp.LlmService.constructor | llm/llm_app.py:14 | The service starts with the given collection and no analyser calls. |
| LlmApp.LlmService.Attempt | llm/llm_app.py:24-35 | The `try` block asks the analyser once with the ticker as given. It appends the article, with the `_id` the driver set, exactly when `insert_one` returned or raised after the server applied the write, and raises exactly the exception Raised names. |
| LlmApp.LlmService.Analyze | llm/llm_app.py:18-53 | One analyser call with the path ticker. The collection grows by Stored, which includes an article whose write was applied before `insert_one` raised. The answer is AnalyzeResponse. |
| LlmApp.Handled | llm/llm_app.py:48-53 | A PyMongoError becomes 500 "Database error: <msg>". Any other exception becomes 500 "Error processing request: <str(e)>". |
| LlmApp.AnalyzeRejected | llm/llm_app.py:25-30 | When the analyser raises or its result lacks `structured_response` or a field, nothing is stored and the answer is 500 "Error processing request: <str(e)>". |
| LlmApp.AnalyzeInserted | llm/llm_app.py:30-53 | For a complete result, the stored ticker is upper-cased. A database error answers 500 "Database error: <msg>" and leaves the article stored, with the `_id` the driver set, exactly when the server applied the write before the error. A truthy id stores the article once, with that `_id` and with `created_at` cut to the millisecond, and answers 202. A falsy id stores it the same way and answers 500 "Error processing request: 500: Failed to insert article into database.". |
| LlmApp.RewrappedDetail | llm/llm_app.py:34-35 | `str()` of the HTTPException raised for a falsy id is "500: " followed by its detail. |
| LlmApp.AnalyzeStatus | llm/llm_app.py:34-53 | The answer is 202 exactly when an article was stored with a truthy id. Every other answer is a 500. |
| LlmApp.QueuedMessage | llm/llm_app.py:38-46 | The 202 body has exactly the keys status, message and ticker. `ticker` echoes the path ticker without upper-casing, and the message embeds it. |
| MlApp.MockSentiment | ml/ml_app.py:19-23 | The fresh result carries the requested ticker. |
| MlApp.SentimentCache.constructor | ml/ml_app.py:9 | The collection starts empty. |
| MlApp.SentimentCache.Analyze | ml/ml_app.py:11-25 | A raising `find_one` answers 500 and changes nothing. A stored ticker is answered from the cache and nothing changes. Otherwise, when `insert_one` returns, exactly one entry is inserted and answered as fresh; when it raises, the answer is 500 and the entry is present exactly when the server applied the write. Other tickers' entries are never touched, and every stored result carries its key. |
| MlApp.AnalyzeTwice | ml/ml_app.py:14-25 | When the first request is answered, a second request whose `find_one` returns is answered from the cache with the same result. |
| MlApp.CaseSensitiveKeys | ml/ml_app.py:14-24 | "aapl" and "AAPL" are two separate fresh entries. |

## Left out

- Network I/O: `requests.get` (llm/tool.py:24, 75) is replaced by the status code and decoded body it returns.
- The LangChain `@tool` wrappers (llm/tool.py:81-178) only forward to the plain functions through a library decorator, so they are not modelled.
- The LLM agent `analyze_news` (llm/agent.py is not part of this model): its outcome is an input.
- MongoDB itself: `MongoClient`, `get_collection`, the `/healthz` pings (llm/llm_app.py:56-66, ml/ml_app.py:28-38) and logging. Collections are a sequence or a map. The outcome of `MongoClient`, the database lookup, `insert_one` in both services and `find_one` in the ML service is an input.
- `RateLimit`: the client declares it but never enforces it.
- Tool.ConvertStory: integer milliseconds only, and a float `time` is not modelled. A bool `time` counts as 0 or 1, as in Python.
- Tool.ConvertedTimeReadsBack: The model keeps the exact millisecond, `ms % 1000 * 1000` microseconds. Python computes `ms / 1000` as a float, which keeps the millisecond exact only while abs(ms) < 8589934592000 (2^33 seconds, about 1697-10-17 to 2242-03-16). Beyond that the microseconds can differ: 10000000000001 gives `.000999` in Python and `.001000` here, and MaxEpochMs gives `.998993`. Whole seconds stay exact at any size.
- Tool.ConvertTimestampMsToIso: returns the converted value rather than the same dict object. Identity and aliasing of the response and story dicts are not modelled. Neither are stories that share a dict.
- Calendar.UtcFromTimestampMs: out of range means outside years 1..9999. Platform limits of the C library (for example, negative timestamps on Windows) are not modelled. Its microseconds equal Python's only while abs(ms) < 8589934592000, that is 2^33 seconds, because beyond that the float `ms / 1000` rounds the fraction. Whole seconds are exact at any size.
- Tool.FeedRequestUrl: the query and the last id are sent without URL-encoding, as in the code, so an `&` in them splits into extra parameters (see Findings). Other characters a server would decode, such as `+`, `#` and `%`, are not modelled.
- Tool.GetFeed: `limit` is an integer, and `if limit:` means non-zero. A `None` or string limit is not modelled. `last_id` is an optional string.
- Strings.Upper: `str.upper` and `str.lower` are modelled on ASCII letters only. Unicode case mapping is not modelled.
- Models.ArticlesByTickerSpec: only datetime `created_at` values are compared. Documents without a datetime there sort after all dated ones and keep collection order among themselves. MongoDB's full cross-type BSON order and its unspecified tie order are not modelled.
- Models.CreateArticle: `datetime.utcnow()` is the parameter `now`.
- MlApp.SentimentCache.Analyze: the score 0.42 is an opaque constant. Two concurrent requests for the same ticker, which could both miss and both insert, are not modelled.
- Models.ConnectionClass.New: when `_connect` raises, the half-initialised instance stays published, as in the code. It may hold a client without a database, and later calls return it without connecting. The model records this and does not correct it.
- `web-app/app.py`, `get_trending_articles`, user accounts and daily limits have no code among the core files and are not modelled.

## Findings

| source | as written | input that shows it | evidently intended | confidence | as-written member | corrected member |
|---|---|---|---|---|---|---|
| llm/tool.py:16-22 | The query and the last id are put into the URL without encoding. | `get_entity_news("AT&T")` requests `...?q=E:at&t&n=30`: `q` is `E:at` and `t` is a stray parameter. | Each value is percent-encoded, so it stays inside its own parameter. | High that an `&` splits the parameter; not executed. | Tool.AmpersandEntityExample | Tool.QuotedFeedRequestUrlParams |
