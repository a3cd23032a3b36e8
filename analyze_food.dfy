/** The handler of api/analyze-food.js: a guard chain with early returns,
    one call to the hosted model, the reply normaliser, and a `catch` that
    classifies whatever was thrown. */
module AnalyzeFood {
  import opened Json
  import opened Http
  import opened Normalizer

  /** What awaiting the model gives: the reply's `message.content` (`None`
      is `null`), or a thrown error with its `code` (`None` when it is not a
      string) and its `message` (`None` when `undefined`). */
  datatype Completion =
    | Reply(content: Option<string>)
    | Thrown(code: Option<string>, message: Option<string>)

  const QuotaExceeded := "OpenAI API quota exceeded"
  const QuotaDetails := "Please check your OpenAI account billing and usage limits"
  const InvalidKey := "Invalid OpenAI API key"
  const InvalidKeyDetails := "Please check your OPENAI_API_KEY environment variable"
  const AnalysisFailed := "Failed to analyze food image"
  const UnknownError := "Unknown error occurred"

  /** The outer `catch`: the response for an error with `code` and `message`. */
  function ClassifyError(code: Option<string>, message: Option<string>): (r: Response)
    ensures r.status == 500 && r.body.ErrorBody?
    ensures r.body.error == QuotaExceeded <==> code == Some("insufficient_quota")
    ensures r.body.error == InvalidKey <==> code == Some("invalid_api_key")
    ensures r.body.error == AnalysisFailed <==>
      code != Some("insufficient_quota") && code != Some("invalid_api_key")
    ensures r.body.error == QuotaExceeded ==> r.body.details == Some(QuotaDetails)
    ensures r.body.error == InvalidKey ==> r.body.details == Some(InvalidKeyDetails)
    ensures r.body.error == AnalysisFailed ==>
      r.body.details == Some(if TruthyString(message) then message.value else UnknownError)
  {
    if code == Some("insufficient_quota") then Response(500, ErrorBody(QuotaExceeded, Some(QuotaDetails)))
    else if code == Some("invalid_api_key") then Response(500, ErrorBody(InvalidKey, Some(InvalidKeyDetails)))
    else Response(500, ErrorBody(AnalysisFailed, Some(if TruthyString(message) then message.value else UnknownError)))
  }

  /** The response of the handler. `keyConfigured` is the truthiness of the
      `OPENAI_API_KEY` environment variable; `upstream` is what awaiting the
      model gives for an image, and `parse` is `JSON.parse`. */
  function Dispatch(req: Request, keyConfigured: bool,
                    upstream: JsonValue -> Completion,
                    parse: string -> Option<JsonValue>): (r: Response)
    ensures r.status in {200, 400, 405, 500}
    ensures r.status == 200 ==> r.body == NoBody || (r.body.JsonBody? && PassesGuards(req, keyConfigured))
    ensures r.status != 200 ==> r.body.ErrorBody?
  {
    if req.verb == "OPTIONS" then Response(200, NoBody)
    else if req.verb != "POST" then Response(405, ErrorBody(MethodNotAllowed, None))
    else if !keyConfigured then Response(500, ErrorBody(KeyNotConfigured, Some(KeyNotConfiguredDetails)))
    else
      match DestructureImage(req.body)
      case DestructureError(typeError) => ClassifyError(None, Some(typeError))
      case Image(image) =>
        if !Truthy(image) then Response(400, ErrorBody(NoImage, None))
        else
          match upstream(image.value)
          case Reply(content) => Response(200, JsonBody(Normalized(content, parse)))
          case Thrown(code, message) => ClassifyError(code, message)
  }

  /** The guards in their order: OPTIONS, then the method, then the key
      (before the image, so a missing key wins over a missing image), then
      the body and the image. */
  lemma GuardOrder(req: Request, keyConfigured: bool,
                   upstream: JsonValue -> Completion, parse: string -> Option<JsonValue>)
    ensures req.verb == "OPTIONS" ==>
      Dispatch(req, keyConfigured, upstream, parse) == Response(200, NoBody)
    ensures req.verb != "OPTIONS" && req.verb != "POST" ==>
      Dispatch(req, keyConfigured, upstream, parse) == Response(405, ErrorBody(MethodNotAllowed, None))
    ensures req.verb == "POST" && !keyConfigured ==>
      Dispatch(req, keyConfigured, upstream, parse) ==
        Response(500, ErrorBody(KeyNotConfigured, Some(KeyNotConfiguredDetails)))
    ensures req.verb == "POST" && keyConfigured && DestructureImage(req.body).DestructureError? ==>
      Dispatch(req, keyConfigured, upstream, parse) ==
        Response(500, ErrorBody(AnalysisFailed, Some(DestructureImage(req.body).message)))
    ensures req.verb == "POST" && keyConfigured && DestructureImage(req.body).Image? &&
            !Truthy(DestructureImage(req.body).image) ==>
      Dispatch(req, keyConfigured, upstream, parse) == Response(400, ErrorBody(NoImage, None))
  {
  }

  /** The model is consulted only when every guard passes: otherwise the
      response is the same whatever the model would do. */
  lemma UpstreamOnlyAfterGuards(req: Request, keyConfigured: bool,
                                upstream1: JsonValue -> Completion, upstream2: JsonValue -> Completion,
                                parse: string -> Option<JsonValue>)
    requires !PassesGuards(req, keyConfigured)
    ensures Dispatch(req, keyConfigured, upstream1, parse) == Dispatch(req, keyConfigured, upstream2, parse)
  {
  }

  /** Once the guards pass, a reply always gives status 200 and the
      normalised body, and a thrown error gives its classified response. */
  lemma UpstreamOutcome(req: Request, keyConfigured: bool,
                        upstream: JsonValue -> Completion, parse: string -> Option<JsonValue>)
    requires PassesGuards(req, keyConfigured)
    ensures var image := DestructureImage(req.body).image.value;
      match upstream(image)
      case Reply(content) =>
        Dispatch(req, keyConfigured, upstream, parse) == Response(200, JsonBody(Normalized(content, parse)))
      case Thrown(code, message) =>
        Dispatch(req, keyConfigured, upstream, parse) == ClassifyError(code, message)
  {
  }

  /** Status 200 comes only from OPTIONS or from a reply of the model, and
      then the body has all four analysis fields unless the reply was parsed
      whole as an array; every other response is 400, 405 or 500. */
  lemma StatusCodes(req: Request, keyConfigured: bool,
                    upstream: JsonValue -> Completion, parse: string -> Option<JsonValue>)
    ensures Dispatch(req, keyConfigured, upstream, parse).status in {200, 400, 405, 500}
    ensures Dispatch(req, keyConfigured, upstream, parse).status == 200 <==>
      req.verb == "OPTIONS" ||
      (PassesGuards(req, keyConfigured) && upstream(DestructureImage(req.body).image.value).Reply?)
    ensures var r := Dispatch(req, keyConfigured, upstream, parse);
      r.body.JsonBody? && r.body.value.JObject? ==> HasAnalysisShape(r.body.value.fields)
  {
  }
}
