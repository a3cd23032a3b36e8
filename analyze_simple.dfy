/** The handler of api/analyze-simple.js: the same guard chain as
    analyze-food.js, ending in a fixed mock analysis instead of a model call. */
module AnalyzeSimple {
  import opened Json
  import opened Http
  import opened Normalizer
  import AnalyzeFood

  const ProcessingFailed := "Failed to process request"

  /** The constant record the endpoint returns. */
  const MockResult := AnalysisResult(
    "Test Food Item", true,
    "This is a test response. The API endpoint is working correctly.",
    [])

  /** The response of the handler; `keyConfigured` is the truthiness of the
      `OPENAI_API_KEY` environment variable. Only destructuring a missing
      body can throw, and the `catch` reports its message. */
  function Dispatch(req: Request, keyConfigured: bool): (r: Response)
    ensures r.status in {200, 400, 405, 500}
    ensures r.status == 200 ==> r.body == NoBody || r.body == JsonBody(ToJson(MockResult))
    ensures r.status != 200 ==> r.body.ErrorBody?
  {
    if req.verb == "OPTIONS" then Response(200, NoBody)
    else if req.verb != "POST" then Response(405, ErrorBody(MethodNotAllowed, None))
    else if !keyConfigured then Response(500, ErrorBody(KeyNotConfigured, Some(KeyNotConfiguredDetails)))
    else
      match DestructureImage(req.body)
      case DestructureError(typeError) => Response(500, ErrorBody(ProcessingFailed, Some(typeError)))
      case Image(image) =>
        if !Truthy(image) then Response(400, ErrorBody(NoImage, None))
        else Response(200, JsonBody(ToJson(MockResult)))
  }

  /** The guards in their order: OPTIONS first, then the method, then the
      key (so a missing key wins over a missing image), then the image. */
  lemma GuardOrder(req: Request, keyConfigured: bool)
    ensures req.verb == "OPTIONS" ==> Dispatch(req, keyConfigured) == Response(200, NoBody)
    ensures req.verb != "OPTIONS" && req.verb != "POST" ==>
      Dispatch(req, keyConfigured) == Response(405, ErrorBody(MethodNotAllowed, None))
    ensures req.verb == "POST" && !keyConfigured ==>
      Dispatch(req, keyConfigured) == Response(500, ErrorBody(KeyNotConfigured, Some(KeyNotConfiguredDetails)))
    ensures req.verb == "POST" && keyConfigured && DestructureImage(req.body).DestructureError? ==>
      Dispatch(req, keyConfigured) ==
        Response(500, ErrorBody(ProcessingFailed, Some(DestructureImage(req.body).message)))
    ensures req.verb == "POST" && keyConfigured && DestructureImage(req.body).Image? &&
            !Truthy(DestructureImage(req.body).image) ==>
      Dispatch(req, keyConfigured) == Response(400, ErrorBody(NoImage, None))
  {
  }

  /** Past the guards the response is always 200 with the mock record,
      whatever the image is. */
  lemma MockIgnoresImage(req: Request, keyConfigured: bool)
    requires PassesGuards(req, keyConfigured)
    ensures Dispatch(req, keyConfigured) == Response(200, JsonBody(ToJson(MockResult)))
    ensures var v := Dispatch(req, keyConfigured).body.value;
      v.fields["foodName"] == JString("Test Food Item") && v.fields["isSafe"] == JBool(true) &&
      v.fields["warnings"] == JArray([]) && HasAnalysisShape(v.fields)
  {
  }

  /** The two endpoints answer alike wherever the guards decide: on every
      request that does not reach the model, except a missing body, where
      each reports the runtime's message under its own error text. */
  lemma AgreesWithAnalyzeFood(req: Request, keyConfigured: bool,
                              upstream: JsonValue -> AnalyzeFood.Completion,
                              parse: string -> Option<JsonValue>)
    requires !PassesGuards(req, keyConfigured)
    requires !(req.verb == "POST" && keyConfigured && DestructureImage(req.body).DestructureError?)
    ensures Dispatch(req, keyConfigured) == AnalyzeFood.Dispatch(req, keyConfigured, upstream, parse)
  {
  }
}
