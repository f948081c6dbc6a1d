/**
 * llm/llm_app.py: the `POST /analyze/{ticker}` handler.  It asks the news
 * analyser for a structured verdict, stores it as an article and answers
 * 202; every exception becomes a 500 whose detail depends on where it came
 * from.
 *
 * The analyser (an LLM agent) and the outcome of `insert_one` are inputs;
 * the articles collection and the log of analyser calls are the state.
 */
module LlmApp {
  import opened Wrappers
  import opened Strings
  import opened Calendar
  import opened Models

  /** What `analyze_news(ticker)` produced. */
  datatype AnalyserOutcome =
    | AnalyserFailed(message: string)   // it raised; `message` is `str(e)`
    // it returned; `structured` is `raw_result['structured_response'].model_dump()`,
    // None when the key is missing
    | Analysed(structured: Option<map<string, string>>)

  /**
   * What `articles_collection.insert_one(...)` did.  The driver sets `_id` on
   * the document before sending it, so a PyMongoError can arrive after the
   * server applied the write (`written` holds that `_id`) or before (None).
   */
  datatype InsertOutcome =
    | Inserted(insertedId: Bson)                                // stored; the driver reports this id
    | DatabaseFailure(message: string, written: Option<Bson>)  // raised a PyMongoError

  /** The `_id` under which the article reached the collection, if it did. */
  function WrittenId(insert: InsertOutcome): Option<Bson> {
    match insert
    case Inserted(id) => Some(id)
    case DatabaseFailure(_, written) => written
  }

  /** The exceptions raised inside the `try` block. */
  datatype Exception =
    | PyMongoError(message: string)
    | HttpException(statusCode: int, detail: string)
    | OtherException(message: string)

  datatype Response =
    | Json(statusCode: int, content: map<string, string>)
    | HttpError(statusCode: int, detail: string)

  const InsertFailedDetail := "Failed to insert article into database."

  /** Python truthiness of an inserted id. */
  predicate Truthy(v: Bson) {
    match v
    case Null => false
    case Boolean(b) => b
    case Integer(i) => i != 0
    case Text(s) => s != ""
    case _ => true
  }

  /** `str(e)`; for FastAPI's HTTPException it is "<status>: <detail>". */
  function ExceptionText(e: Exception): string {
    match e
    case PyMongoError(m) => m
    case HttpException(code, detail) => IntToString(code) + ": " + detail
    case OtherException(m) => m
  }

  /** The body of the 202 answer. */
  function Queued(ticker: string): map<string, string> {
    map["status" := "queued", "message" := "Analysis for " + ticker + " initiated.", "ticker" := ticker]
  }

  /** `str(KeyError(key))`. */
  function KeyErrorText(key: string): string {
    "'" + key + "'"
  }

  /** The first of the three fields `analyze` reads that the analyser left out, if any. */
  function MissingField(result: map<string, string>): Option<string> {
    if "overall_sentiment" !in result then Some("overall_sentiment")
    else if "summary" !in result then Some("summary")
    else if "analysis" !in result then Some("analysis")
    else None
  }

  /** The article `analyze` builds from a complete analyser result. */
  function ArticleFor(ticker: string, result: map<string, string>, now: PyDateTime): Document
    requires MissingField(result).None?
  {
    CreateArticle(ticker, result["overall_sentiment"], result["summary"], result["analysis"], now)
  }

  /** The exception the `try` block of `analyze` raises, if any. */
  function Raised(analysis: AnalyserOutcome, insert: InsertOutcome): Option<Exception> {
    match analysis
    case AnalyserFailed(message) => Some(OtherException(message))
    case Analysed(structured) =>
      if structured.None? then Some(OtherException(KeyErrorText("structured_response")))
      else if MissingField(structured.value).Some? then
        Some(OtherException(KeyErrorText(MissingField(structured.value).value)))
      else match insert
        case DatabaseFailure(message, _) => Some(PyMongoError(message))
        case Inserted(id) => if Truthy(id) then None else Some(HttpException(500, InsertFailedDetail))
  }

  /**
   * The documents the `try` block adds to the collection: one exactly when
   * the server applied `insert_one`'s write, whether the call then returned or
   * raised, holding the article and the `_id` the driver gave it, as the
   * collection keeps them (dates to the millisecond).
   */
  function Stored(ticker: string, analysis: AnalyserOutcome, insert: InsertOutcome, now: PyDateTime)
    : seq<Document>
  {
    if analysis.Analysed? && analysis.structured.Some? && MissingField(analysis.structured.value).None?
       && WrittenId(insert).Some?
    then [AsStored(ArticleFor(ticker, analysis.structured.value, now)["_id" := WrittenId(insert).value])]
    else []
  }

  /** The two `except` clauses: a PyMongoError, then any other exception. */
  function Handled(e: Exception): (r: Response)
    ensures r.HttpError? && r.statusCode == 500
  {
    match e
    case PyMongoError(m) => HttpError(500, "Database error: " + m)
    case _ => HttpError(500, "Error processing request: " + ExceptionText(e))
  }

  /** The answer of `analyze`. */
  function AnalyzeResponse(ticker: string, analysis: AnalyserOutcome, insert: InsertOutcome): Response {
    match Raised(analysis, insert)
    case None => Json(202, Queued(ticker))
    case Some(e) => Handled(e)
  }

  /** The service's module-level state. */
  class LlmService {
    var articles: seq<Document>      // the `articles` collection
    var analyserCalls: seq<string>   // every ticker passed to `analyze_news`, in order

    constructor (articles: seq<Document>)
      ensures this.articles == articles && analyserCalls == []
    {
      this.articles := articles;
      analyserCalls := [];
    }

    /** The `try` block of `analyze`: the exception it raises, if any. */
    method Attempt(ticker: string, analysis: AnalyserOutcome, insert: InsertOutcome, now: PyDateTime)
      returns (raised: Option<Exception>)
      modifies this
      ensures analyserCalls == old(analyserCalls) + [ticker]
      ensures articles == old(articles) + Stored(ticker, analysis, insert, now)
      ensures raised == Raised(analysis, insert)
    {
      raised := None;
      analyserCalls := analyserCalls + [ticker];
      match analysis {
        case AnalyserFailed(message) =>
          raised := Some(OtherException(message));
        case Analysed(structured) =>
          if structured.None? {
            raised := Some(OtherException(KeyErrorText("structured_response")));
          } else if MissingField(structured.value).Some? {
            raised := Some(OtherException(KeyErrorText(MissingField(structured.value).value)));
          } else {
            var result := structured.value;
            var article := CreateArticle(ticker, result["overall_sentiment"], result["summary"],
                                         result["analysis"], now);
            match insert {
              case DatabaseFailure(message, written) =>
                if written.Some? {
                  articles := articles + [AsStored(article["_id" := written.value])];
                }
                raised := Some(PyMongoError(message));
              case Inserted(id) =>
                articles := articles + [AsStored(article["_id" := id])];
                if !Truthy(id) {
                  raised := Some(HttpException(500, InsertFailedDetail));
                }
            }
          }
      }
    }

    /** `analyze(ticker)` at wall-clock time `now`; AnalyzeRejected and AnalyzeInserted spell the answer out. */
    method Analyze(ticker: string, analysis: AnalyserOutcome, insert: InsertOutcome, now: PyDateTime)
      returns (response: Response)
      modifies this
      ensures analyserCalls == old(analyserCalls) + [ticker]
      ensures articles == old(articles) + Stored(ticker, analysis, insert, now)
      ensures response == AnalyzeResponse(ticker, analysis, insert)
    {
      var raised := Attempt(ticker, analysis, insert, now);
      match raised {
        case None =>
          response := Json(202, Queued(ticker));
        case Some(e) =>
          response := Handled(e);
      }
    }
  }

  /**
   * The analyser failing or leaving out a field: nothing is stored and the
   * answer is 500 "Error processing request: <str(e)>".
   */
  lemma AnalyzeRejected(ticker: string, analysis: AnalyserOutcome, insert: InsertOutcome, now: PyDateTime)
    ensures var response, stored := AnalyzeResponse(ticker, analysis, insert), Stored(ticker, analysis, insert, now);
      && (analysis.AnalyserFailed? ==>
            stored == [] && response == HttpError(500, "Error processing request: " + analysis.message))
      && (analysis.Analysed? && analysis.structured.None? ==>
            stored == []
            && response == HttpError(500, "Error processing request: " + KeyErrorText("structured_response")))
      && (analysis.Analysed? && analysis.structured.Some? && MissingField(analysis.structured.value).Some? ==>
            stored == []
            && response == HttpError(500, "Error processing request: "
                                           + KeyErrorText(MissingField(analysis.structured.value).value)))
  {
  }

  /**
   * A complete analyser result: a database error answers 500 "Database
   * error: <msg>" and leaves the article stored only if the server applied
   * the write first; a returned insert stores the article, and answers 202
   * echoing the ticker as given when the id is truthy, while a falsy id's
   * HTTPException is re-wrapped by the generic handler.  A stored article
   * carries the `_id` the driver assigned and `created_at` cut to the
   * millisecond.
   */
  lemma AnalyzeInserted(ticker: string, result: map<string, string>, insert: InsertOutcome, now: PyDateTime)
    requires MissingField(result).None?
    ensures var analysis := Analysed(Some(result));
      var response, stored := AnalyzeResponse(ticker, analysis, insert), Stored(ticker, analysis, insert, now);
      var article := ArticleFor(ticker, result, now);
      && article["ticker"] == Text(Upper(ticker))
      && (insert.DatabaseFailure? ==>
            && stored == (if insert.written.Some? then [AsStored(article["_id" := insert.written.value])] else [])
            && response == HttpError(500, "Database error: " + insert.message))
      && (insert.Inserted? && Truthy(insert.insertedId) ==>
            stored == [AsStored(article["_id" := insert.insertedId])] && response == Json(202, Queued(ticker)))
      && (insert.Inserted? && !Truthy(insert.insertedId) ==>
            stored == [AsStored(article["_id" := insert.insertedId])]
            && response == HttpError(500, "Error processing request: " + ("500: " + InsertFailedDetail)))
      && (WrittenId(insert).Some? ==>
            && |stored| == 1
            && stored[0]["_id"] == StoredValue(WrittenId(insert).value)
            && stored[0]["ticker"] == Text(Upper(ticker))
            && stored[0]["created_at"] == UtcDatetime(TruncateToMillis(now)))
  {
    if insert.Inserted? && !Truthy(insert.insertedId) {
      RewrappedDetail(InsertFailedDetail);
    }
  }

  /** The text the generic handler gives the HTTPException raised for a falsy id. */
  lemma RewrappedDetail(detail: string)
    ensures ExceptionText(HttpException(500, detail)) == "500: " + detail
  {
    assert IntToString(500) == "500";
    assert "500: " == "500" + ": ";
  }

  /** Only a stored article with a truthy id is answered 202; every other path is a 500. */
  lemma AnalyzeStatus(ticker: string, analysis: AnalyserOutcome, insert: InsertOutcome, now: PyDateTime)
    ensures var response := AnalyzeResponse(ticker, analysis, insert);
      (response.Json? && response.statusCode == 202) <==>
        Stored(ticker, analysis, insert, now) != [] && insert.Inserted? && Truthy(insert.insertedId)
    ensures AnalyzeResponse(ticker, analysis, insert).HttpError? ==>
      AnalyzeResponse(ticker, analysis, insert).statusCode == 500
  {
  }

  /** The message of the 202 answer names the ticker and can be read back from it. */
  lemma QueuedMessage(ticker: string)
    ensures var body := Queued(ticker);
      && body.Keys == {"status", "message", "ticker"}
      && body["ticker"] == ticker
      && var m := body["message"];
         |m| == |ticker| + 24 && m[13..13 + |ticker|] == ticker
  {
  }
}
