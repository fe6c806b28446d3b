/**
 * The check `initializeReadability` applies to what the extraction script
 * returns (SwiftReadability/Readability.swift:180-199), and the object the
 * script builds for it (SwiftReadability/readability_initialization.template.js:15-19).
 */
module Extraction {
  import opened Wrappers

  /** `ReadabilityError`, and the errors WebKit reports, which are passed on unchanged. */
  datatype Error =
    | UnableToParseScriptResult(rawResult: Option<string>)
    | DecodingFailure
    | LoadingFailure
    | WebKitError(code: int)

  /**
   * A JSON object whose values are all strings or null, what the cast
   * `as? [String: String?]` admits. Turning text into such an object is
   * `JSONSerialization`'s work and is a parameter here.
   */
  type JsonObject = map<string, Option<string>>

  /** The fields of an extracted article that the reader template shows. */
  datatype Article = Article(title: Option<string>, byline: Option<string>, content: string)

  /** The keys the result must have: `title` and `byline` (maybe null) and a non-null `content`. */
  predicate IsArticleObject(json: JsonObject) {
    && "title" in json
    && "byline" in json
    && "content" in json
    && json["content"].Some?
  }

  /**
   * The guards of the `evaluateJavaScript` callback. A result that is not a
   * string hands WebKit's own error (possibly nil) on; a string that does not
   * parse to an object of strings and nulls with the required keys fails
   * with `unableToParseScriptResult` carrying that string.
   */
  function CheckScriptResult(result: Option<string>, engineError: Option<Error>,
                             parseJson: string -> Option<JsonObject>): (r: Result<Article, Option<Error>>)
    ensures result.None? ==> r == Failure(engineError)
    ensures result.Some? ==> (r.Success? <==> parseJson(result.value).Some? && IsArticleObject(parseJson(result.value).value))
    ensures result.Some? && r.Failure? ==> r.error == Some(UnableToParseScriptResult(result))
    ensures r.Success? ==>
      var json := parseJson(result.value).value;
      r.value == Article(json["title"], json["byline"], json["content"].value)
  {
    match result
    case None => Failure(engineError)
    case Some(raw) =>
      var parseError := Some(UnableToParseScriptResult(Some(raw)));
      match parseJson(raw)
      case None => Failure(parseError)
      case Some(json) =>
        if "content" !in json then Failure(parseError)
        else if json["content"].None? then Failure(parseError)
        else if "title" !in json || "byline" !in json then Failure(parseError)
        else Success(Article(json["title"], json["byline"], json["content"].value))
  }

  /**
   * The object the initialization script stringifies: `JSON.stringify` keeps
   * keys whose value is null, so all three keys are present.
   */
  function ScriptOutput(a: Article): (json: JsonObject)
    ensures IsArticleObject(json)
  {
    map["title" := a.title, "byline" := a.byline, "content" := Some(a.content)]
  }

  /**
   * Round trip between the two sides: whatever article the script
   * stringifies, the Swift side reads back exactly, once `JSONSerialization`
   * has turned the text back into the same object.
   */
  lemma CheckScriptResultReadsScriptOutput(raw: string, a: Article, engineError: Option<Error>,
                                           parseJson: string -> Option<JsonObject>)
    requires parseJson(raw) == Some(ScriptOutput(a))
    ensures CheckScriptResult(Some(raw), engineError, parseJson) == Success(a)
  {
    var json := ScriptOutput(a);
    assert json["title"] == a.title && json["byline"] == a.byline && json["content"] == Some(a.content);
  }
}
