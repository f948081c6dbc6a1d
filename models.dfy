/**
 * common/models.py: the article documents the services store in MongoDB and
 * the process-wide connection object.
 *
 * A document is a flat map from field names to BSON scalars; a collection is
 * the sequence of its documents in insertion order.  The wall clock
 * (`datetime.utcnow()`), the environment (`MONGO_URI`) and the outcome of
 * each MongoDB driver step are parameters.
 */
module Models {
  import opened Wrappers
  import opened Strings
  import opened Calendar
  import opened Sorting

  /** The BSON scalar values an article field can hold. */
  datatype Bson =
    | Null
    | Boolean(b: bool)
    | Integer(i: int)
    | Text(s: string)
    | UtcDatetime(dt: PyDateTime)  // the BSON UTC datetime, read back as a naive `datetime`
    | Oid(hex: string)            // an `ObjectId`, by its hexadecimal form

  type Document = map<string, Bson>

  /** Python's `str(v)`. */
  function PyStr(v: Bson): string {
    match v
    case Null => "None"
    case Boolean(b) => if b then "True" else "False"
    case Integer(i) => IntToString(i)
    case Text(s) => s
    case UtcDatetime(dt) => IsoFormat(dt, ' ')
    case Oid(hex) => hex
  }

  // ---------------------------------------------------------------------
  // What a collection keeps of a document
  // ---------------------------------------------------------------------

  /** A BSON date holds whole milliseconds: the driver drops the rest of the microseconds. */
  function TruncateToMillis(dt: PyDateTime): (r: PyDateTime)
    ensures r.DateOf() == dt.DateOf() && r.hour == dt.hour && r.minute == dt.minute && r.second == dt.second
    ensures r.microsecond % 1000 == 0 && r.microsecond <= dt.microsecond < r.microsecond + 1000
    ensures EpochMs(r) == EpochMs(dt)
  {
    DateTime(dt.year, dt.month, dt.day, dt.hour, dt.minute, dt.second, dt.microsecond / 1000 * 1000)
  }

  /** Reading a stored date back decodes its millisecond count, which gives the truncated date. */
  lemma StoredDateDecodes(dt: PyDateTime)
    ensures UtcFromTimestampMs(EpochMs(dt)) == Some(TruncateToMillis(dt))
  {
    EpochMsInverse(TruncateToMillis(dt));
  }

  /** A value as the collection keeps it. */
  function StoredValue(v: Bson): Bson {
    if v.UtcDatetime? then UtcDatetime(TruncateToMillis(v.dt)) else v
  }

  /** A document as `insert_one` stores it: the same keys, every date cut to whole milliseconds. */
  function AsStored(doc: Document): (r: Document)
    ensures r.Keys == doc.Keys
    ensures forall k :: k in doc && !doc[k].UtcDatetime? ==> r[k] == doc[k]
    ensures forall k :: k in doc && doc[k].UtcDatetime? ==>
      r[k].UtcDatetime? && r[k].dt == TruncateToMillis(doc[k].dt)
  {
    map k | k in doc :: StoredValue(doc[k])
  }

  /** Storing a document read back from the collection keeps it as it is. */
  lemma AsStoredIdempotent(doc: Document)
    ensures AsStored(AsStored(doc)) == AsStored(doc)
  {
    forall k | k in doc ensures AsStored(AsStored(doc))[k] == AsStored(doc)[k] {
      if doc[k].UtcDatetime? {
        assert TruncateToMillis(TruncateToMillis(doc[k].dt)) == TruncateToMillis(doc[k].dt);
      }
    }
  }

  // ---------------------------------------------------------------------
  // ArticleModel.create_article
  // ---------------------------------------------------------------------

  /** `create_article(ticker, title, summary, body)` at wall-clock time `now`. */
  function CreateArticle(ticker: string, title: string, summary: string, body: string, now: PyDateTime)
    : (article: Document)
    ensures article.Keys == {"ticker", "title", "summary", "body", "created_at"}
    ensures article["ticker"].Text?
    ensures EqualIgnoringCase(article["ticker"].s, ticker)
    ensures forall i :: 0 <= i < |ticker| ==> !IsLowerAscii(article["ticker"].s[i])
    ensures article["title"] == Text(title) && article["summary"] == Text(summary)
    ensures article["body"] == Text(body) && article["created_at"] == UtcDatetime(now)
  {
    UpperSpec(ticker);
    UpperIdempotent(ticker);
    UpperIgnoresCase(Upper(ticker), ticker);
    map["ticker" := Text(Upper(ticker)), "title" := Text(title), "summary" := Text(summary),
        "body" := Text(body), "created_at" := UtcDatetime(now)]
  }

  // ---------------------------------------------------------------------
  // ArticleModel.get_articles_by_ticker
  // ---------------------------------------------------------------------

  /** The filter `{"ticker": key}`. */
  predicate Matches(doc: Document, key: string) {
    "ticker" in doc && doc["ticker"] == Text(key)
  }

  /** A date-time as microseconds since the Unix epoch. */
  function EpochMicros(dt: PyDateTime): int {
    var days := ToOrdinal(dt.DateOf()) - EpochOrdinal;
    (days * SecondsPerDay + dt.hour * 3600 + dt.minute * 60 + dt.second) * 1000000 + dt.microsecond
  }

  /** The `created_at` sort key; documents without a datetime there sort after all dated ones. */
  function SortKey(doc: Document): int {
    if "created_at" in doc && doc["created_at"].UtcDatetime? then EpochMicros(doc["created_at"].dt)
    else MinEpochMs * 1000 - 1
  }

  /** The order of `.sort("created_at", DESCENDING)`. */
  predicate NewestFirst(docs: seq<Document>) {
    DescendingBy(docs, SortKey)
  }

  /** `collection.find({"ticker": key})`, in collection order. */
  function FindByTicker(collection: seq<Document>, key: string): (r: seq<Document>)
    ensures forall d :: d in r ==> Matches(d, key)
    ensures forall d :: multiset(r)[d] == if Matches(d, key) then multiset(collection)[d] else 0
  {
    if collection == [] then []
    else
      assert collection == [collection[0]] + collection[1..];
      (if Matches(collection[0], key) then [collection[0]] else []) + FindByTicker(collection[1..], key)
  }

  /**
   * The filter keeps collection order: the matches of a concatenation are the
   * matches of the first part followed by those of the second.
   */
  lemma {:induction false} FindByTickerAppend(a: seq<Document>, b: seq<Document>, key: string)
    ensures FindByTicker(a + b, key) == FindByTicker(a, key) + FindByTicker(b, key)
  {
    if a == [] {
      assert a + b == b;
    } else {
      var head := if Matches(a[0], key) then [a[0]] else [];
      calc {
        FindByTicker(a + b, key);
      == { assert (a + b)[0] == a[0] && (a + b)[1..] == a[1..] + b; }
        head + FindByTicker(a[1..] + b, key);
      == { FindByTickerAppend(a[1..], b, key); }
        head + (FindByTicker(a[1..], key) + FindByTicker(b, key));
      ==
        (head + FindByTicker(a[1..], key)) + FindByTicker(b, key);
      }
    }
  }

  /** `get_articles_by_ticker(collection, ticker)`. */
  function ArticlesByTicker(collection: seq<Document>, ticker: string): seq<Document> {
    SortBy(FindByTicker(collection, Upper(ticker)), SortKey)
  }

  /**
   * The result holds exactly the documents whose ticker is the upper-cased
   * argument, each as often as the collection does, newest first.
   */
  lemma ArticlesByTickerSpec(collection: seq<Document>, ticker: string)
    ensures NewestFirst(ArticlesByTicker(collection, ticker))
    ensures forall d :: multiset(ArticlesByTicker(collection, ticker))[d]
                        == if Matches(d, Upper(ticker)) then multiset(collection)[d] else 0
    ensures forall d :: d in ArticlesByTicker(collection, ticker) <==> d in collection && Matches(d, Upper(ticker))
  {
    var r := ArticlesByTicker(collection, ticker);
    forall d ensures d in r <==> d in collection && Matches(d, Upper(ticker)) {
      assert d in r <==> multiset(r)[d] > 0;
      assert d in collection <==> multiset(collection)[d] > 0;
    }
  }

  /** "aapl" and "AAPL" (any two spellings equal up to case) give the same articles. */
  lemma ArticlesByTickerIgnoresCase(collection: seq<Document>, a: string, b: string)
    requires EqualIgnoringCase(a, b)
    ensures ArticlesByTicker(collection, a) == ArticlesByTicker(collection, b)
  {
    UpperIgnoresCase(a, b);
  }

  /** An article just created for `ticker` is found by exactly the queries equal to it up to case. */
  lemma CreatedArticleFound(collection: seq<Document>, ticker: string, query: string,
                            title: string, summary: string, body: string, now: PyDateTime)
    ensures var article := CreateArticle(ticker, title, summary, body, now);
      article in ArticlesByTicker(collection + [article], query) <==> EqualIgnoringCase(ticker, query)
  {
    var article := CreateArticle(ticker, title, summary, body, now);
    ArticlesByTickerSpec(collection + [article], query);
    assert article in collection + [article];
    UpperIgnoresCase(ticker, query);
  }

  // ---------------------------------------------------------------------
  // ArticleModel.format_article
  // ---------------------------------------------------------------------

  /** A Python `dict` passed by reference. */
  class Dict {
    var items: Document

    constructor (items: Document)
      ensures this.items == items
    {
      this.items := items;
    }
  }

  /** The `_id` step of format_article: `_id` moves to `id` as a string. */
  function IdConverted(doc: Document): Document {
    if "_id" in doc then doc["id" := Text(PyStr(doc["_id"]))] - {"_id"} else doc
  }

  /** The `created_at` step: a datetime becomes its isoformat string. */
  function DateConverted(doc: Document): Document {
    if "created_at" in doc && doc["created_at"].UtcDatetime?
    then doc["created_at" := Text(IsoFormat(doc["created_at"].dt, 'T'))]
    else doc
  }

  /** The dict format_article leaves behind. */
  function Formatted(doc: Document): Document {
    DateConverted(IdConverted(doc))
  }

  /** format_article: rewrites the dict in place and returns that same dict. */
  method FormatArticle(article: Dict) returns (formatted: Dict)
    modifies article
    ensures formatted == article
    ensures article.items == Formatted(old(article.items))
  {
    if "_id" in article.items {
      article.items := article.items["id" := Text(PyStr(article.items["_id"]))];
      article.items := article.items - {"_id"};
    }
    if "created_at" in article.items && article.items["created_at"].UtcDatetime? {
      article.items := article.items["created_at" := Text(IsoFormat(article.items["created_at"].dt, 'T'))];
    }
    return article;
  }

  /** After formatting there is no `_id`, and an `id` exactly when there was one of the two. */
  lemma FormattedKeys(doc: Document)
    ensures var r := Formatted(doc);
      && "_id" !in r
      && r.Keys == (doc.Keys - {"_id"}) + (if "_id" in doc then {"id"} else {})
  {
  }

  /** `id` is the string form of the old `_id`, and untouched when there was none. */
  lemma FormattedId(doc: Document)
    ensures var r := Formatted(doc);
      && ("_id" in doc ==> r["id"] == Text(PyStr(doc["_id"])))
      && ("_id" !in doc && "id" in doc ==> r["id"] == doc["id"])
  {
    FormattedKeys(doc);
  }

  /** A datetime `created_at` becomes a string that parses back to it; any other value stays. */
  lemma FormattedCreatedAt(doc: Document)
    ensures var r := Formatted(doc);
      && ("created_at" in doc && doc["created_at"].UtcDatetime? ==>
            r["created_at"].Text?
            && ParseIsoFormat(r["created_at"].s, 'T') == Some(doc["created_at"].dt))
      && ("created_at" in doc && !doc["created_at"].UtcDatetime? ==> r["created_at"] == doc["created_at"])
  {
    FormattedKeys(doc);
    if "created_at" in doc && doc["created_at"].UtcDatetime? {
      IsoFormatRoundTrip(doc["created_at"].dt, 'T');
    }
  }

  /** Every field other than `_id`, `id` and `created_at` is unchanged. */
  lemma FormattedOthers(doc: Document)
    ensures var r := Formatted(doc);
      forall k :: k in doc && k != "_id" && k != "id" && k != "created_at" ==> k in r && r[k] == doc[k]
  {
  }

  /** Formatting an already formatted article changes nothing. */
  lemma FormattedIdempotent(doc: Document)
    ensures Formatted(Formatted(doc)) == Formatted(doc)
  {
    var f := Formatted(doc);
    FormattedKeys(doc);
    assert IdConverted(f) == f;
    FormattedCreatedAt(doc);
  }

  lemma NoonDateField()
    ensures DateField(DateTime(2023, 1, 1, 12, 0, 0, 0)) == "2023-01-01"
  {
    PadFourDigits(2023);
    PadTwoDigits(1);
  }

  lemma NoonTimeField()
    ensures TimeField(DateTime(2023, 1, 1, 12, 0, 0, 0)) == "12:00:00"
    ensures FractionField(DateTime(2023, 1, 1, 12, 0, 0, 0)) == ""
  {
    PadTwoDigits(12);
    PadTwoDigits(0);
  }

  lemma NoonIsoFormat()
    ensures IsoFormat(DateTime(2023, 1, 1, 12, 0, 0, 0), 'T') == "2023-01-01T12:00:00"
  {
    NoonDateField();
    NoonTimeField();
  }

  /** The datetime case the code handles: no UTC offset is appended. */
  lemma FormattedDatetimeExample()
    ensures Formatted(map["ticker" := Text("AAPL"), "created_at" := UtcDatetime(DateTime(2023, 1, 1, 12, 0, 0, 0))])
            == map["ticker" := Text("AAPL"), "created_at" := Text("2023-01-01T12:00:00")]
  {
    NoonIsoFormat();
  }

  // ---------------------------------------------------------------------
  // MongoDBConnection
  // ---------------------------------------------------------------------

  const DefaultMongoUri := "mongodb://localhost:27017/mydb"

  /** `os.getenv("MONGO_URI", "mongodb://localhost:27017/mydb")`. */
  function ConfiguredUri(env: Option<string>): string {
    if env.Some? then env.value else DefaultMongoUri
  }

  /** `s.rsplit(sep, 1)[-1]`: the longest suffix of `s` free of `sep`. */
  function LastSegment(s: string, sep: char): (r: string)
    ensures sep !in r
    ensures |r| <= |s| && s[|s| - |r|..] == r
    ensures |r| < |s| ==> s[|s| - |r| - 1] == sep
  {
    if s == [] || s[|s| - 1] == sep then []
    else LastSegment(s[..|s| - 1], sep) + [s[|s| - 1]]
  }

  /** The database name `_connect` picks out of the URI. */
  function DatabaseName(uri: string): string {
    LastSegment(uri, '/')
  }

  /** The three properties of LastSegment determine it. */
  lemma LastSegmentUnique(s: string, sep: char, r: string)
    requires sep !in r && |r| <= |s| && s[|s| - |r|..] == r
    requires |r| < |s| ==> s[|s| - |r| - 1] == sep
    ensures LastSegment(s, sep) == r
  {
    var l := LastSegment(s, sep);
    assert |l| == |r|;
  }

  /** The default URI selects database "mydb"; a custom one its own last segment. */
  lemma DatabaseNameExamples()
    ensures DatabaseName(ConfiguredUri(None)) == "mydb"
    ensures DatabaseName(ConfiguredUri(Some("mongodb://mongodb:27017/stockDB"))) == "stockDB"
    ensures DatabaseName("mydb") == "mydb"
  {
    LastSegmentUnique(DefaultMongoUri, '/', "mydb");
    LastSegmentUnique("mongodb://mongodb:27017/stockDB", '/', "stockDB");
    LastSegmentUnique("mydb", '/', "mydb");
  }

  /** One connection object: the driver client's URI and the selected database. */
  class MongoDBConnection {
    var clientUri: Option<string>   // `_client`, None until `_connect` has created it
    var database: Option<string>    // `_db`, by name

    /** `super().__new__(cls)`: the attributes still read the class-level None. */
    constructor ()
      ensures clientUri.None? && database.None?
    {
      clientUri := None;
      database := None;
    }

    /**
     * `_connect`.  `clientCreated` is whether `MongoClient(uri)` returns and
     * `databaseFound` whether the lookup `_client[db_name]` then does (the
     * driver refuses, for instance, the empty name of a URI ending in `/`).
     * Each assignment happens only once its right-hand side has returned, so
     * a failing lookup leaves `_client` set and `_db` unset.
     */
    method Connect(env: Option<string>, clientCreated: bool, databaseFound: bool) returns (ok: bool)
      modifies this
      ensures ok == (clientCreated && databaseFound)
      ensures clientCreated ==> clientUri == Some(ConfiguredUri(env))
      ensures !clientCreated ==> clientUri == old(clientUri)
      ensures ok ==> database == Some(DatabaseName(ConfiguredUri(env)))
      ensures !ok ==> database == old(database)
    {
      var uri := ConfiguredUri(env);
      if !clientCreated {
        return false;
      }
      clientUri := Some(uri);
      var name := LastSegment(uri, '/');
      if !databaseFound {
        return false;
      }
      database := Some(name);
      return true;
    }
  }

  /** The class object `MongoDBConnection` and its `_instance` slot. */
  class ConnectionClass {
    var instance: MongoDBConnection?
    ghost var connects: nat   // how many times `_connect` has run

    constructor ()
      ensures instance == null && connects == 0
    {
      instance := null;
      connects := 0;
    }

    /**
     * `MongoDBConnection()`.  The first call creates the instance, publishes it
     * in `_instance` and then connects; None stands for the exception `_connect`
     * raises.  Every later call returns the published instance untouched.
     */
    method New(env: Option<string>, clientCreated: bool, databaseFound: bool)
      returns (conn: Option<MongoDBConnection>)
      modifies this
      ensures old(instance) != null ==>
        conn == Some(old(instance)) && instance == old(instance) && connects == old(connects)
      ensures old(instance) == null ==>
        && instance != null && fresh(instance) && connects == old(connects) + 1
        && (clientCreated ==> instance.clientUri == Some(ConfiguredUri(env)))
        && (!clientCreated ==> instance.clientUri.None?)
        && (clientCreated && databaseFound ==>
              conn == Some(instance) && instance.database == Some(DatabaseName(ConfiguredUri(env))))
        && (!(clientCreated && databaseFound) ==> conn == None && instance.database.None?)
    {
      if instance == null {
        var created := new MongoDBConnection();
        instance := created;
        connects := connects + 1;
        var ok := created.Connect(env, clientCreated, databaseFound);
        if !ok {
          return None;
        }
      }
      return Some(instance);
    }
  }

  /**
   * Two constructions in a row on a fresh class: both return the same
   * instance when both driver steps succeed, and `_connect` has run once
   * either way; after a failed first construction the second returns the
   * half-initialised instance.
   */
  method ConstructTwice(cls: ConnectionClass, env: Option<string>, clientCreated: bool, databaseFound: bool)
    returns (first: Option<MongoDBConnection>, second: Option<MongoDBConnection>)
    requires cls.instance == null
    modifies cls
    ensures cls.connects == old(cls.connects) + 1
    ensures second.Some? && second.value == cls.instance
    ensures clientCreated && databaseFound ==> first == second
    ensures !(clientCreated && databaseFound) ==> first.None? && second.value.database.None?
  {
    first := cls.New(env, clientCreated, databaseFound);
    second := cls.New(env, clientCreated, databaseFound);
  }
}
