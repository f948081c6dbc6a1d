/**
 * llm/tool.py: the Tickertick feed client.  `get_feed` builds the request URL
 * step by step and, on status 200, rewrites every story's epoch-millisecond
 * `time` into an ISO 8601 date-time string; the helpers build the feed's
 * query language (`z:`, `tt:`, `s:`, `T:curated`, `E:`, `(or ...)`).
 *
 * The HTTP exchange is an input: the caller supplies the status code and the
 * decoded body (None when the body is not JSON) that the server answered.
 */
module Tool {
  import opened Wrappers
  import opened Strings
  import opened Calendar

  const FeedUrl := "https://api.tickertick.com/feed"
  const TickersUrl := "https://api.tickertick.com/tickers"
  const DefaultFeedLimit := 30
  const DefaultSearchLimit := 5
  const RateLimit := 10   // requests per minute; declared by the client, never enforced

  /** A decoded JSON value (numbers are integers; see README). */
  datatype Json =
    | Null
    | Bool(b: bool)
    | Int(i: int)
    | Str(s: string)
    | List(items: seq<Json>)
    | Object(fields: map<string, Json>)

  /** The Python exceptions the feed code can let escape. */
  datatype PyError =
    | KeyError         // `response['stories']` on a dict without that key
    | TypeError        // indexing, `in` or `/ 1000` on a value that does not support it
    | RangeError       // `utcfromtimestamp` outside years 1..9999 (ValueError / OverflowError)
    | JsonDecodeError  // `response.json()` on a body that is not JSON

  datatype Outcome = Returned(value: Json) | Raised(error: PyError)

  datatype HttpResponse = HttpResponse(statusCode: int, body: Option<Json>)

  // ---------------------------------------------------------------------
  // convert_timestamp_ms_to_iso
  // ---------------------------------------------------------------------

  /** Python's `part in s` on strings. */
  predicate HasSubstring(s: string, part: string) {
    |part| <= |s| && (s[..|part|] == part || HasSubstring(s[1..], part))
  }

  /** The number `story['time'] / 1000` divides: an int, or a bool as 0 or 1. */
  function TimeMs(v: Json): Option<int> {
    match v
    case Int(i) => Some(i)
    case Bool(b) => Some(if b then 1 else 0)
    case _ => None
  }

  /** The exception one iteration of the loop raises on `story`, if any. */
  function StoryError(story: Json): Option<PyError> {
    match story
    case Object(f) =>
      if "time" !in f then None
      else if TimeMs(f["time"]).None? then Some(TypeError)
      else if MinEpochMs <= TimeMs(f["time"]).value <= MaxEpochMs then None
      else Some(RangeError)
    case Str(s) => if HasSubstring(s, "time") then Some(TypeError) else None
    case List(xs) => if Str("time") in xs then Some(TypeError) else None
    case _ => Some(TypeError)
  }

  /** The story after one iteration: `time` replaced by its UTC isoformat string. */
  function ConvertStory(story: Json): (r: Json)
    requires StoryError(story).None?
    ensures !(story.Object? && "time" in story.fields) ==> r == story
    ensures story.Object? && "time" in story.fields ==>
      && r.Object? && r.fields.Keys == story.fields.Keys
      && (forall k :: k in story.fields && k != "time" ==> r.fields[k] == story.fields[k])
      && r.fields["time"].Str?
  {
    match story
    case Object(f) =>
      if "time" in f then
        var dt := UtcFromTimestampMs(TimeMs(f["time"]).value).value;
        Object(f["time" := Str(IsoFormat(dt, 'T'))])
      else story
    case _ => story
  }

  /**
   * The new `time` string is read back by `fromisoformat` as the instant the
   * old millisecond count names, to the whole millisecond.
   */
  lemma ConvertedTimeReadsBack(story: Json)
    requires StoryError(story).None? && story.Object? && "time" in story.fields
    ensures var dt := ParseIsoFormat(ConvertStory(story).fields["time"].s, 'T');
      && dt.Some? && EpochMs(dt.value) == TimeMs(story.fields["time"]).value
      && dt.value.microsecond % 1000 == 0
  {
    var dt := UtcFromTimestampMs(TimeMs(story.fields["time"]).value).value;
    IsoFormatRoundTrip(dt, 'T');
  }

  /** Index of the first story the loop raises on. */
  function FirstFailure(stories: seq<Json>): (r: Option<nat>)
    ensures r.None? <==> forall i :: 0 <= i < |stories| ==> StoryError(stories[i]).None?
    ensures r.Some? ==>
      && r.value < |stories| && StoryError(stories[r.value]).Some?
      && forall i :: 0 <= i < r.value ==> StoryError(stories[i]).None?
  {
    if stories == [] then None
    else if StoryError(stories[0]).Some? then Some(0)
    else match FirstFailure(stories[1..])
      case None => None
      case Some(k) => Some(k + 1)
  }

  /** The stories once the loop has rewritten the first `done` of them. */
  function ConvertedUpTo(stories: seq<Json>, done: nat): (r: seq<Json>)
    requires done <= |stories|
    requires forall i :: 0 <= i < done ==> StoryError(stories[i]).None?
    ensures |r| == |stories|
  {
    seq(|stories|, i requires 0 <= i < |stories| =>
      if i < done then ConvertStory(stories[i]) else stories[i])
  }

  /**
   * The `for` loop of convert_timestamp_ms_to_iso over the list of stories,
   * rewriting each in place.  When a story raises, the stories before it
   * stay rewritten and the rest are untouched.
   */
  method ConvertStories(stories: array<Json>) returns (failure: Option<nat>)
    modifies stories
    ensures failure == FirstFailure(old(stories[..]))
    ensures stories[..] == ConvertedUpTo(old(stories[..]),
                                         if failure.Some? then failure.value else stories.Length)
  {
    var i := 0;
    while i < stories.Length
      invariant 0 <= i <= stories.Length
      invariant forall j :: 0 <= j < i ==> StoryError(old(stories[j])).None?
      invariant stories[..] == ConvertedUpTo(old(stories[..]), i)
    {
      if StoryError(stories[i]).Some? {
        return Some(i);
      }
      stories[i] := ConvertStory(stories[i]);
      i := i + 1;
    }
    return None;
  }

  /** What convert_timestamp_ms_to_iso returns or raises for a decoded response. */
  function ConvertedResponse(response: Json): Outcome {
    if !response.Object? then Raised(TypeError)
    else if "stories" !in response.fields then Raised(KeyError)
    else
      var f := response.fields;
      match f["stories"]
      case List(xs) =>
        (match FirstFailure(xs)
         case Some(k) => Raised(StoryError(xs[k]).value)
         case None => Returned(Object(f["stories" := List(ConvertedUpTo(xs, |xs|))])))
      // iterating a dict visits its keys, each a string story
      case Object(m) =>
        if exists k :: k in m && StoryError(Str(k)).Some? then Raised(TypeError) else Returned(response)
      // iterating a string visits one-character strings, which never contain "time"
      case Str(_) => Returned(response)
      case _ => Raised(TypeError)
  }

  /** convert_timestamp_ms_to_iso. */
  method ConvertTimestampMsToIso(response: Json) returns (out: Outcome)
    ensures out == ConvertedResponse(response)
  {
    if !response.Object? {
      return Raised(TypeError);
    }
    var f := response.fields;
    if "stories" !in f {
      return Raised(KeyError);
    }
    match f["stories"]
    case List(xs) =>
      var stories := new Json[|xs|](i requires 0 <= i < |xs| => xs[i]);
      assert stories[..] == xs;
      var failure := ConvertStories(stories);
      if failure.Some? {
        out := Raised(StoryError(xs[failure.value]).value);
      } else {
        out := Returned(Object(f["stories" := List(stories[..])]));
      }
    case Object(m) =>
      if exists k :: k in m && StoryError(Str(k)).Some? {
        out := Raised(TypeError);
      } else {
        out := Returned(response);
      }
    case Str(_) =>
      out := Returned(response);
    case _ =>
      out := Raised(TypeError);
  }

  /**
   * A successful conversion keeps the response's keys and the number and order
   * of stories; a story changes only if it is a dict with a `time` key, and then
   * only that key, which now holds the isoformat string of its timestamp; its
   * other fields keep their values.
   */
  lemma ConvertedResponseShape(response: Json)
    requires ConvertedResponse(response).Returned?
    ensures var out := ConvertedResponse(response).value;
      && response.Object? && out.Object?
      && out.fields.Keys == response.fields.Keys
      && (forall k :: k in response.fields && k != "stories" ==> out.fields[k] == response.fields[k])
      && (response.fields["stories"].List? ==>
            var before, after := response.fields["stories"].items, out.fields["stories"].items;
            && out.fields["stories"].List? && |after| == |before|
            && forall i :: 0 <= i < |before| ==>
                 (after[i] == before[i] || (before[i].Object? && "time" in before[i].fields))
                 && (before[i].Object? && "time" in before[i].fields ==>
                       && after[i].Object? && after[i].fields.Keys == before[i].fields.Keys
                       && after[i].fields["time"].Str?
                       && forall k :: k in before[i].fields && k != "time" ==>
                            after[i].fields[k] == before[i].fields[k]))
      && (!response.fields["stories"].List? ==> out == response)
  {
  }

  // ---------------------------------------------------------------------
  // get_feed and search_tickers
  // ---------------------------------------------------------------------

  /** `if last_id:` on an optional string. */
  predicate LastIdGiven(lastId: Option<string>) {
    lastId.Some? && lastId.value != ""
  }

  /** The query parameters get_feed sends, in order. */
  function FeedParams(query: string, limit: int, lastId: Option<string>): seq<string> {
    ["q=" + query]
    + (if limit != 0 then ["n=" + IntToString(limit)] else [])
    + (if LastIdGiven(lastId) then ["last=" + lastId.value] else [])
  }

  function FeedRequestUrl(query: string, limit: int, lastId: Option<string>): string {
    FeedUrl + "?" + Join(FeedParams(query, limit, lastId), '&')
  }

  /** `{"error": "API request failed with status code <code>"}`. */
  function ErrorBody(statusCode: int): (r: Json)
    ensures r.Object? && r.fields.Keys == {"error"} && r.fields["error"].Str?
    ensures var msg := r.fields["error"].s;
      var prefix := "API request failed with status code ";
      |msg| > |prefix| && msg[..|prefix|] == prefix && ParseInt(msg[|prefix|..]) == Some(statusCode)
  {
    var prefix := "API request failed with status code ";
    var msg := prefix + IntToString(statusCode);
    assert msg[|prefix|..] == IntToString(statusCode);
    IntToStringRoundTrip(statusCode);
    Object(map["error" := Str(msg)])
  }

  /** The dict the tests expect for a server answering 500. */
  lemma ErrorBodyExample(statusCode: int)
    requires statusCode == 500
    ensures ErrorBody(statusCode) == Object(map["error" := Str("API request failed with status code 500")])
  {
    var prefix := "API request failed with status code ";
    assert IntToString(statusCode) == "500";
    assert prefix + "500" == "API request failed with status code 500";
  }

  /** What get_feed returns or raises once the server has answered. */
  function FeedOutcome(response: HttpResponse): Outcome {
    if response.statusCode != 200 then Returned(ErrorBody(response.statusCode))
    else if response.body.None? then Raised(JsonDecodeError)
    else ConvertedResponse(response.body.value)
  }

  /**
   * The first half of get_feed: the request URL, extended with `+=` one
   * parameter at a time; `params` tracks the parameters appended so far.
   */
  method BuildFeedUrl(query: string, limit: int, lastId: Option<string>) returns (url: string)
    ensures url == FeedRequestUrl(query, limit, lastId)
  {
    ghost var params := ["q=" + query];
    url := FeedUrl + "?q=" + query;
    assert url == FeedUrl + "?" + Join(params, '&') by {
      assert "?q=" == ['?'] + "q=";
      Regroup(FeedUrl, ['?'], "q=", query);
    }
    if limit != 0 {
      var n := IntToString(limit);
      url := url + "&n=" + n;
      assert "&n=" == ['&'] + "n=";
      AppendParam(FeedUrl + "?", params, '&', "n=", n);
      params := params + ["n=" + n];
    }
    if LastIdGiven(lastId) {
      url := url + "&last=" + lastId.value;
      assert "&last=" == ['&'] + "last=";
      AppendParam(FeedUrl + "?", params, '&', "last=", lastId.value);
      params := params + ["last=" + lastId.value];
    }
    assert params == FeedParams(query, limit, lastId);
  }

  /**
   * get_feed: the URL it requests and what it returns for the server's answer.
   * The server's answer comes first so that `limit` and `lastId` can carry
   * the source's defaults.
   */
  method GetFeed(response: HttpResponse, query: string, limit: int := DefaultFeedLimit,
                 lastId: Option<string> := None)
    returns (url: string, out: Outcome)
    ensures url == FeedRequestUrl(query, limit, lastId)
    ensures out == FeedOutcome(response)
  {
    url := BuildFeedUrl(query, limit, lastId);
    if response.statusCode == 200 {
      if response.body.None? {
        out := Raised(JsonDecodeError);
      } else {
        out := ConvertTimestampMsToIso(response.body.value);
      }
    } else {
      out := Returned(ErrorBody(response.statusCode));
    }
  }

  /** Splitting the query string on `&` recovers the parameters, in order. */
  lemma FeedRequestUrlParams(query: string, limit: int, lastId: Option<string>)
    requires '&' !in query && (lastId.Some? ==> '&' !in lastId.value)
    ensures var url := FeedRequestUrl(query, limit, lastId);
      && url[..|FeedUrl| + 1] == FeedUrl + "?"
      && Split(url[|FeedUrl| + 1..], '&') == FeedParams(query, limit, lastId)
  {
    var params := FeedParams(query, limit, lastId);
    assert forall i :: 0 <= i < |params| ==> '&' !in params[i] by {
      NatToStringHasNoAmpersand(limit);
    }
    SplitJoin(params, '&');
    var url := FeedRequestUrl(query, limit, lastId);
    assert url[|FeedUrl| + 1..] == Join(params, '&');
  }

  lemma NatToStringHasNoAmpersand(i: int)
    ensures '&' !in IntToString(i)
  {
    var s := IntToString(i);
    if i >= 0 {
      assert forall j :: 0 <= j < |s| ==> IsDigit(s[j]);
    } else {
      assert forall j :: 1 <= j < |s| ==> IsDigit(s[j]);
    }
  }

  /** The parameters of the requests llm/tests/test_tool.py checks. */
  lemma FeedParamsExamples()
    ensures FeedParams("test_query", 10, None) == ["q=test_query", "n=10"]
    ensures FeedParams("test_query", 10, Some("last_123")) == ["q=test_query", "n=10", "last=last_123"]
    ensures FeedParams("test_query", 0, Some("")) == ["q=test_query"]
  {
    assert IntToString(10) == "10";
    assert "q=" + "test_query" == "q=test_query";
    assert "n=" + "10" == "n=10";
    assert "last=" + "last_123" == "last=last_123";
  }

  /**
   * The query goes into the URL unencoded, so an `&` in it starts a new
   * parameter: get_entity_news("AT&T") sends `q=E:at`, a stray `t`, and `n=30`.
   */
  lemma AmpersandEntityExample(e: string)
    requires e == "AT&T"
    ensures Split(FeedRequestUrl(EntityQuery(e), DefaultFeedLimit, None)[|FeedUrl| + 1..], '&')
         == ["q=E:at", "t", "n=30"]
  {
    forall i | 0 <= i < |e| ensures NormalizeEntity(e)[i] == "at&t"[i] {
      NormalizeEntityAt(e, i);
    }
    assert EntityQuery(e) == "E:at&t";
    DefaultFeedParams(EntityQuery(e));
    var parts := ["q=E:at", "t", "n=30"];
    assert "q=" + EntityQuery(e) == parts[0] + ['&'] + parts[1];
    assert Join(parts[1..], '&') == parts[1] + ['&'] + parts[2];
    assert Join(["q=" + EntityQuery(e), "n=30"], '&') == Join(parts, '&');
    var url := FeedRequestUrl(EntityQuery(e), DefaultFeedLimit, None);
    assert url[|FeedUrl| + 1..] == Join(parts, '&');
    assert forall i :: 0 <= i < |parts| ==> '&' !in parts[i];
    SplitJoin(parts, '&');
  }

  // ---------------------------------------------------------------------
  // The feed URL with its values percent-encoded: `%` and `&` become `%25`
  // and `%26`, so every value stays inside its own parameter.
  // ---------------------------------------------------------------------

  function Quote(s: string): (r: string)
    ensures '&' !in r
    ensures |r| >= |s|
  {
    if s == [] then ""
    else (if s[0] == '&' then "%26" else if s[0] == '%' then "%25" else [s[0]]) + Quote(s[1..])
  }

  function Unquote(s: string): string {
    if |s| >= 3 && s[..3] == "%26" then "&" + Unquote(s[3..])
    else if |s| >= 3 && s[..3] == "%25" then "%" + Unquote(s[3..])
    else if s == [] then ""
    else [s[0]] + Unquote(s[1..])
  }

  lemma {:induction false} UnquoteQuote(s: string)
    ensures Unquote(Quote(s)) == s
  {
    if s != [] {
      var rest := Quote(s[1..]);
      UnquoteQuote(s[1..]);
      var head := if s[0] == '&' then "%26" else if s[0] == '%' then "%25" else [s[0]];
      var q := head + rest;
      assert Quote(s) == q;
      if |head| == 3 {
        assert q[..3] == head && q[3..] == rest;
      } else {
        assert q[0] == s[0] != '%';
        assert q[1..] == rest;
      }
      assert s == [s[0]] + s[1..];
    }
  }

  function QuotedLastId(lastId: Option<string>): Option<string> {
    match lastId
    case None => None
    case Some(v) => Some(Quote(v))
  }

  /** get_feed's URL with the query and the last id percent-encoded. */
  function QuotedFeedRequestUrl(query: string, limit: int, lastId: Option<string>): string {
    FeedRequestUrl(Quote(query), limit, QuotedLastId(lastId))
  }

  /**
   * Whatever the query holds, the encoded URL splits into exactly the
   * parameters get_feed means to send, and `q` decodes back to the query.
   */
  lemma QuotedFeedRequestUrlParams(query: string, limit: int, lastId: Option<string>)
    ensures var params := Split(QuotedFeedRequestUrl(query, limit, lastId)[|FeedUrl| + 1..], '&');
      && params == FeedParams(Quote(query), limit, QuotedLastId(lastId))
      && params[0][..2] == "q=" && Unquote(params[0][2..]) == query
      && (LastIdGiven(QuotedLastId(lastId)) <==> LastIdGiven(lastId))
  {
    FeedRequestUrlParams(Quote(query), limit, QuotedLastId(lastId));
    var q := "q=" + Quote(query);
    assert q[..2] == "q=" && q[2..] == Quote(query);
    UnquoteQuote(query);
  }

  /** With the default limit and no last id, get_feed sends `q` and `n=30`. */
  lemma DefaultFeedParams(query: string)
    ensures FeedParams(query, DefaultFeedLimit, None) == ["q=" + query, "n=30"]
  {
    assert IntToString(DefaultFeedLimit) == "30";
    assert "n=" + "30" == "n=30";
  }

  /**
   * `get_feed("test_query")` against a server answering 500, as
   * llm/tests/test_tool.py calls it: the defaults apply and the error dict
   * is returned.
   */
  method GetFeedDefaultsExample(query: string) returns (url: string, out: Outcome)
    ensures url == FeedRequestUrl(query, DefaultFeedLimit, None)
    ensures FeedParams(query, DefaultFeedLimit, None) == ["q=" + query, "n=30"]
    ensures out == Returned(Object(map["error" := Str("API request failed with status code 500")]))
  {
    url, out := GetFeed(HttpResponse(500, None), query);
    DefaultFeedParams(query);
    ErrorBodyExample(500);
  }

  /** A non-200 answer yields the error dict whatever the body, with no conversion. */
  lemma ErrorStatusIgnoresBody(statusCode: int, body1: Option<Json>, body2: Option<Json>)
    requires statusCode != 200
    ensures FeedOutcome(HttpResponse(statusCode, body1)) == FeedOutcome(HttpResponse(statusCode, body2))
    ensures FeedOutcome(HttpResponse(statusCode, body1)).Returned?
    ensures FeedOutcome(HttpResponse(statusCode, body1)).value.fields.Keys == {"error"}
  {
  }

  /** The query parameters search_tickers sends: `n` unconditionally, even when zero. */
  function SearchParams(query: string, limit: int): seq<string> {
    ["p=" + query, "n=" + IntToString(limit)]
  }

  lemma SearchParamsJoin(query: string, limit: int)
    ensures TickersUrl + "?" + Join(SearchParams(query, limit), '&')
            == TickersUrl + "?p=" + query + "&n=" + IntToString(limit)
  {
    var first := ["p=" + query];
    assert Join(first, '&') == "p=" + query;
    assert "?p=" == ['?'] + "p=";
    Regroup(TickersUrl, ['?'], "p=", query);
    assert "&n=" == ['&'] + "n=";
    AppendParam(TickersUrl + "?", first, '&', "n=", IntToString(limit));
    assert first + ["n=" + IntToString(limit)] == SearchParams(query, limit);
  }

  /** search_tickers: the URL it requests and what it returns for the server's answer. */
  function SearchTickers(response: HttpResponse, query: string, limit: int := DefaultSearchLimit)
    : (r: (string, Outcome))
    ensures r.0 == TickersUrl + "?" + Join(SearchParams(query, limit), '&')
    ensures response.statusCode == 200 && response.body.Some? ==> r.1 == Returned(response.body.value)
    ensures response.statusCode == 200 && response.body.None? ==> r.1 == Raised(JsonDecodeError)
    ensures response.statusCode != 200 ==> r.1 == Returned(ErrorBody(response.statusCode))
  {
    var url := TickersUrl + "?p=" + query + "&n=" + IntToString(limit);
    SearchParamsJoin(query, limit);
    var out :=
      if response.statusCode != 200 then Returned(ErrorBody(response.statusCode))
      else if response.body.None? then Raised(JsonDecodeError)
      else Returned(response.body.value);
    (url, out)
  }

  /**
   * `search_tickers("Invalid query")` against a server answering 500: the
   * default limit 5 is sent and the error dict is returned.
   */
  lemma SearchTickersDefaultsExample(query: string)
    ensures SearchTickers(HttpResponse(500, None), query).0 == TickersUrl + "?p=" + query + "&n=5"
    ensures SearchTickers(HttpResponse(500, None), query).1
            == Returned(Object(map["error" := Str("API request failed with status code 500")]))
  {
    assert IntToString(DefaultSearchLimit) == "5";
    ErrorBodyExample(500);
  }

  /** Splitting search_tickers' query string on `&` recovers its two parameters. */
  lemma SearchTickersParams(query: string, limit: int, response: HttpResponse)
    requires '&' !in query
    ensures var url := SearchTickers(response, query, limit).0;
      && url[..|TickersUrl| + 1] == TickersUrl + "?"
      && Split(url[|TickersUrl| + 1..], '&') == SearchParams(query, limit)
  {
    NatToStringHasNoAmpersand(limit);
    SplitJoin(SearchParams(query, limit), '&');
  }

  // ---------------------------------------------------------------------
  // The query builders
  // ---------------------------------------------------------------------

  /** The feed queries the helpers build, as a value. */
  datatype Query =
    | Ticker(ticker: string)         // z:<ticker>
    | BroadTicker(ticker: string)    // tt:<ticker>
    | Source(source: string)         // s:<source>
    | Curated                        // T:curated
    | Entity(entity: string)         // E:<entity>
    | AnyTicker(tickers: seq<string>)  // (or tt:<t1> tt:<t2> ...)

  function TickerQuery(ticker: string): string { "z:" + ticker }

  function BroadTickerQuery(ticker: string): string { "tt:" + ticker }

  function SourceQuery(source: string): string { "s:" + source }

  const CuratedQuery := "T:curated"

  function BroadTerms(tickers: seq<string>): (terms: seq<string>)
    ensures |terms| == |tickers|
  {
    seq(|tickers|, i requires 0 <= i < |tickers| => BroadTickerQuery(tickers[i]))
  }

  function MultiTickerQuery(tickers: seq<string>): string {
    "(or " + Join(BroadTerms(tickers), ' ') + ")"
  }

  /** `entity.lower().replace(" ", "_")`. */
  function NormalizeEntity(entity: string): (r: string)
    ensures |r| == |entity|
  {
    ReplaceChar(Lower(entity), ' ', '_')
  }

  function EntityQuery(entity: string): string { "E:" + NormalizeEntity(entity) }

  predicate HasPrefix(s: string, prefix: string) {
    |prefix| <= |s| && s[..|prefix|] == prefix
  }

  /** Reads a feed query back into the value it was built from. */
  function ParseQuery(q: string): Option<Query> {
    if HasPrefix(q, "z:") then Some(Ticker(q[2..]))
    else if HasPrefix(q, "tt:") then Some(BroadTicker(q[3..]))
    else if HasPrefix(q, "s:") then Some(Source(q[2..]))
    else if q == CuratedQuery then Some(Curated)
    else if HasPrefix(q, "E:") then Some(Entity(q[2..]))
    else if HasPrefix(q, "(or ") && |q| >= 5 && q[|q| - 1] == ')' then
      var terms := Split(q[4..|q| - 1], ' ');
      if forall i :: 0 <= i < |terms| ==> HasPrefix(terms[i], "tt:") then
        Some(AnyTicker(seq(|terms|, i requires 0 <= i < |terms| => terms[i][3..])))
      else None
    else None
  }

  /** Each single-term builder is undone by ParseQuery, so no two of them collide. */
  lemma SingleTermQueriesRoundTrip(ticker: string, source: string, entity: string)
    ensures ParseQuery(TickerQuery(ticker)) == Some(Ticker(ticker))
    ensures ParseQuery(BroadTickerQuery(ticker)) == Some(BroadTicker(ticker))
    ensures ParseQuery(SourceQuery(source)) == Some(Source(source))
    ensures ParseQuery(CuratedQuery) == Some(Curated)
    ensures ParseQuery(EntityQuery(entity)) == Some(Entity(NormalizeEntity(entity)))
  {
    assert TickerQuery(ticker)[..2] == "z:";
    assert BroadTickerQuery(ticker)[..2] == "tt";
    assert BroadTickerQuery(ticker)[..3] == "tt:";
    assert SourceQuery(source)[..2] == "s:";
    assert EntityQuery(entity)[..2] == "E:";
  }

  /** The `(or ...)` query is undone by ParseQuery when no ticker contains a space. */
  lemma MultiTickerQueryRoundTrip(tickers: seq<string>)
    requires |tickers| > 0
    requires forall i :: 0 <= i < |tickers| ==> ' ' !in tickers[i]
    ensures ParseQuery(MultiTickerQuery(tickers)) == Some(AnyTicker(tickers))
  {
    var q := MultiTickerQuery(tickers);
    var terms := BroadTerms(tickers);
    assert forall i :: 0 <= i < |terms| ==> ' ' !in terms[i] by {
      forall i | 0 <= i < |terms| ensures ' ' !in terms[i] {
        assert terms[i] == "tt:" + tickers[i];
      }
    }
    assert q[0] == '(' && q[..4] == "(or ";
    assert q[4..|q| - 1] == Join(terms, ' ');
    SplitJoin(terms, ' ');
    assert forall i :: 0 <= i < |terms| ==> HasPrefix(terms[i], "tt:") && terms[i][3..] == tickers[i];
    var parsed := seq(|terms|, i requires 0 <= i < |terms| => terms[i][3..]);
    assert parsed == tickers;
  }

  /** The query `get_news_for_multiple_tickers(["AAPL", "MSFT"])` sends. */
  lemma MultiTickerQueryExample()
    ensures MultiTickerQuery(["AAPL", "MSFT"]) == "(or tt:AAPL tt:MSFT)"
  {
    var terms := BroadTerms(["AAPL", "MSFT"]);
    assert terms[0] == "tt:AAPL" && terms[1] == "tt:MSFT";
    assert terms == ["tt:AAPL", "tt:MSFT"];
    assert Join(terms, ' ') == "tt:AAPL tt:MSFT";
  }

  /** A normalised entity has no spaces and no upper-case ASCII letters. */
  lemma NormalizeEntitySpec(entity: string)
    ensures forall i :: 0 <= i < |entity| ==> NormalizeEntity(entity)[i] != ' '
    ensures forall i :: 0 <= i < |entity| ==> !IsUpperAscii(NormalizeEntity(entity)[i])
    ensures forall i :: 0 <= i < |entity| && entity[i] == ' ' ==> NormalizeEntity(entity)[i] == '_'
  {
    LowerSpec(entity);
    forall i | 0 <= i < |entity|
      ensures NormalizeEntity(entity)[i] == if Lower(entity)[i] == ' ' then '_' else Lower(entity)[i]
    {
      ReplaceCharAt(Lower(entity), ' ', '_', i);
    }
  }

  lemma NormalizeEntityIdempotent(entity: string)
    ensures NormalizeEntity(NormalizeEntity(entity)) == NormalizeEntity(entity)
  {
    var n := NormalizeEntity(entity);
    NormalizeEntitySpec(entity);
    LowerSpec(n);
    forall i | 0 <= i < |n|
      ensures NormalizeEntity(n)[i] == if Lower(n)[i] == ' ' then '_' else Lower(n)[i]
    {
      ReplaceCharAt(Lower(n), ' ', '_', i);
    }
  }

  /** Each character is lower-cased, and a space becomes an underscore. */
  lemma NormalizeEntityAt(entity: string, i: nat)
    requires i < |entity|
    ensures NormalizeEntity(entity)[i] == if LowerChar(entity[i]) == ' ' then '_' else LowerChar(entity[i])
  {
    LowerAt(entity, i);
    ReplaceCharAt(Lower(entity), ' ', '_', i);
  }

  /**
   * "Elon Musk", the example entity of `get_entity_news_tool`'s docstring
   * (llm/tool.py:156).  It is a parameter rather than a literal so that the
   * verifier reads its characters one index at a time.
   */
  lemma EntityQueryExample(e: string)
    requires e == "Elon Musk"
    ensures EntityQuery(e) == "E:elon_musk"
  {
    forall i | 0 <= i < |e| ensures NormalizeEntity(e)[i] == "elon_musk"[i] {
      NormalizeEntityAt(e, i);
    }
    assert NormalizeEntity(e) == "elon_musk";
  }

  // ---------------------------------------------------------------------
  // The news helpers: each builds its query and calls get_feed with the
  // caller's limit and no last id.
  // ---------------------------------------------------------------------

  method GetTickerNews(response: HttpResponse, ticker: string, limit: int := DefaultFeedLimit)
    returns (url: string, out: Outcome)
    ensures url == FeedRequestUrl(TickerQuery(ticker), limit, None)
    ensures out == FeedOutcome(response)
  {
    url, out := GetFeed(response, TickerQuery(ticker), limit);
  }

  method GetBroadTickerNews(response: HttpResponse, ticker: string, limit: int := DefaultFeedLimit)
    returns (url: string, out: Outcome)
    ensures url == FeedRequestUrl(BroadTickerQuery(ticker), limit, None)
    ensures out == FeedOutcome(response)
  {
    url, out := GetFeed(response, BroadTickerQuery(ticker), limit);
  }

  method GetNewsFromSource(response: HttpResponse, source: string, limit: int := DefaultFeedLimit)
    returns (url: string, out: Outcome)
    ensures url == FeedRequestUrl(SourceQuery(source), limit, None)
    ensures out == FeedOutcome(response)
  {
    url, out := GetFeed(response, SourceQuery(source), limit);
  }

  method GetNewsForMultipleTickers(response: HttpResponse, tickers: seq<string>,
                                   limit: int := DefaultFeedLimit)
    returns (url: string, out: Outcome)
    ensures url == FeedRequestUrl(MultiTickerQuery(tickers), limit, None)
    ensures out == FeedOutcome(response)
  {
    url, out := GetFeed(response, MultiTickerQuery(tickers), limit);
  }

  method GetCuratedNews(response: HttpResponse, limit: int := DefaultFeedLimit)
    returns (url: string, out: Outcome)
    ensures url == FeedRequestUrl(CuratedQuery, limit, None)
    ensures out == FeedOutcome(response)
  {
    url, out := GetFeed(response, CuratedQuery, limit);
  }

  method GetEntityNews(response: HttpResponse, entity: string, limit: int := DefaultFeedLimit)
    returns (url: string, out: Outcome)
    ensures url == FeedRequestUrl(EntityQuery(entity), limit, None)
    ensures out == FeedOutcome(response)
  {
    url, out := GetFeed(response, EntityQuery(entity), limit);
  }

  // ---------------------------------------------------------------------
  // The two timestamps llm/tests/test_tool.py converts
  // ---------------------------------------------------------------------

  lemma October1Date()
    ensures DateField(DateTime(2021, 10, 1, 0, 0, 0, 0)) == "2021-10-01"
  {
    PadFourDigits(2021);
    PadTwoDigits(10);
    PadTwoDigits(1);
  }

  lemma October2Date()
    ensures DateField(DateTime(2021, 10, 2, 0, 0, 0, 0)) == "2021-10-02"
  {
    PadFourDigits(2021);
    PadTwoDigits(10);
    PadTwoDigits(2);
  }

  lemma MidnightTime(dt: PyDateTime)
    requires dt.hour == 0 && dt.minute == 0 && dt.second == 0 && dt.microsecond == 0
    ensures TimeField(dt) == "00:00:00"
    ensures FractionField(dt) == ""
  {
    PadTwoDigits(0);
  }

  lemma FirstTimestampUtc()
    ensures UtcFromTimestampMs(1633046400000) == Some(DateTime(2021, 10, 1, 0, 0, 0, 0))
  {
    var dt := DateTime(2021, 10, 1, 0, 0, 0, 0);
    assert ToOrdinal(dt.DateOf()) == 738064;
    EpochMsInverse(dt);
  }

  lemma FirstTimestampIso()
    ensures IsoFormat(DateTime(2021, 10, 1, 0, 0, 0, 0), 'T') == "2021-10-01T00:00:00"
  {
    October1Date();
    MidnightTime(DateTime(2021, 10, 1, 0, 0, 0, 0));
  }

  lemma SecondTimestampUtc()
    ensures UtcFromTimestampMs(1633132800000) == Some(DateTime(2021, 10, 2, 0, 0, 0, 0))
  {
    var dt := DateTime(2021, 10, 2, 0, 0, 0, 0);
    assert ToOrdinal(dt.DateOf()) == 738065;
    EpochMsInverse(dt);
  }

  lemma SecondTimestampIso()
    ensures IsoFormat(DateTime(2021, 10, 2, 0, 0, 0, 0), 'T') == "2021-10-02T00:00:00"
  {
    October2Date();
    MidnightTime(DateTime(2021, 10, 2, 0, 0, 0, 0));
  }

  /** An in-range integer `time` is replaced by the isoformat string of its instant. */
  lemma ConvertIntegerTime(fields: map<string, Json>, ms: int, dt: PyDateTime)
    requires "time" in fields && fields["time"] == Int(ms)
    requires UtcFromTimestampMs(ms) == Some(dt)
    ensures StoryError(Object(fields)).None?
    ensures ConvertStory(Object(fields)) == Object(fields["time" := Str(IsoFormat(dt, 'T'))])
  {
    assert TimeMs(fields["time"]) == Some(ms);
  }

  /** A story holding only an integer `time` becomes one holding only its isoformat string. */
  lemma ConvertTimeOnlyStory(ms: int, dt: PyDateTime, iso: string)
    requires UtcFromTimestampMs(ms) == Some(dt) && IsoFormat(dt, 'T') == iso
    ensures ConvertStory(Object(map["time" := Int(ms)])) == Object(map["time" := Str(iso)])
  {
    var fields := map["time" := Int(ms)];
    ConvertIntegerTime(fields, ms, dt);
    assert fields["time" := Str(iso)] == map["time" := Str(iso)];
  }

  lemma FirstTimestampExample()
    ensures ConvertStory(Object(map["time" := Int(1633046400000)]))
            == Object(map["time" := Str("2021-10-01T00:00:00")])
  {
    FirstTimestampUtc();
    FirstTimestampIso();
    ConvertTimeOnlyStory(1633046400000, DateTime(2021, 10, 1, 0, 0, 0, 0), "2021-10-01T00:00:00");
  }

  lemma SecondTimestampExample()
    ensures ConvertStory(Object(map["time" := Int(1633132800000)]))
            == Object(map["time" := Str("2021-10-02T00:00:00")])
  {
    SecondTimestampUtc();
    SecondTimestampIso();
    ConvertTimeOnlyStory(1633132800000, DateTime(2021, 10, 2, 0, 0, 0, 0), "2021-10-02T00:00:00");
  }
}
