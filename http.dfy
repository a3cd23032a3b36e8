/** The request and response shapes both handlers share. CORS headers,
    logging and the `res` object are not modelled; a response is its status
    and its body. */
module Http {
  import opened Json

  /** `req.method` (`verb`) and `req.body`; `None` is an `undefined` body. */
  datatype Request = Request(verb: string, body: Option<JsonValue>)

  datatype ResponseBody =
    | NoBody                                             // `res.status(...).end()`
    | ErrorBody(error: string, details: Option<string>)  // `{ error, details }`, `details` omitted when `None`
    | JsonBody(value: JsonValue)                         // `res.json(value)`

  datatype Response = Response(status: nat, body: ResponseBody)

  /** The outcome of `const { image } = req.body`: a `TypeError` raised by
      the runtime for an `undefined` or `null` body, else the `image`
      property, `undefined` (`None`) for a non-object body. */
  datatype Destructured = Image(image: Option<JsonValue>) | DestructureError(message: string)

  function DestructureImage(body: Option<JsonValue>): (r: Destructured)
    ensures r.DestructureError? <==> (body.None? || body == Some(JNull))
    ensures r.Image? && r.image.Some? ==> body.Some? && body.value.JObject? && r.image == Get(body.value.fields, "image")
    ensures body.Some? && body.value.JObject? ==> r == Image(Get(body.value.fields, "image"))
    ensures body.Some? && !body.value.JObject? && !body.value.JNull? ==> r == Image(None)
  {
    match body
    case None => DestructureError("Cannot destructure property 'image' of 'req.body' as it is undefined.")
    case Some(JNull) => DestructureError("Cannot destructure property 'image' of 'req.body' as it is null.")
    case Some(JObject(fields)) => Image(Get(fields, "image"))
    case Some(_) => Image(None)
  }

  const MethodNotAllowed := "Method not allowed"
  const KeyNotConfigured := "OpenAI API key not configured"
  const KeyNotConfiguredDetails := "Please set OPENAI_API_KEY environment variable in Vercel dashboard"
  const NoImage := "No image provided"

  /** Every guard of either handler passes: a POST with a configured key
      and a truthy image, so the handler goes on with that image. */
  predicate PassesGuards(req: Request, keyConfigured: bool): (b: bool)
    ensures b <==> req.verb == "POST" && keyConfigured && req.body.Some? && req.body.value.JObject? &&
                   "image" in req.body.value.fields && Truthy(Some(req.body.value.fields["image"]))
  {
    req.verb == "POST" && keyConfigured &&
    DestructureImage(req.body).Image? && Truthy(DestructureImage(req.body).image)
  }
}
