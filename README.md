# GutSense food-analysis handlers, modelled in Dafny

GutSense is a demo web app. The user uploads a photo of food. A serverless
handler (`api/analyze-food.js`) sends it to a hosted vision model and turns
the model's free-text reply into an analysis object with four fields:
`foodName`, `isSafe`, `explanation` and `warnings`. A second handler
(`api/analyze-simple.js`) runs the same request checks and returns a fixed
mock analysis.

This project models:

- the **guard chain** of both handlers: OPTIONS, the method check, the API-key
  check, destructuring `req.body` and the image check;
- the **reply normaliser**: regex extraction of the `{ ... }` span, `JSON.parse`,
  field-by-field defaulting, and the fallback record when anything throws;
- the **error classification** of the outer `catch`.

It proves the properties the code promises about them.

Files (one module each):

- `json.dfy` (`Json`): parsed JSON values; JavaScript truthiness, `typeof x === 'boolean'` and `Array.isArray`.
- `extraction.dfy` (`Extraction`): what `content.match(/\{[\s\S]*\}/)` returns. It is proved equal to an independent leftmost-longest definition of the regex match.
- `normalizer.dfy` (`Normalizer`): the normaliser. `Normalize` is an imperative method: it falls back early at each point that throws, and `DefaultInPlace` overwrites the parsed object's fields one `if` at a time. It is proved equal to the function `Normalized`, which the handler model uses.
- `http.dfy` (`Http`): the request and response shapes, the destructuring of `req.body`, and the guard predicate shared by both handlers.
- `analyze_food.dfy` (`AnalyzeFood`): `Dispatch` and `ClassifyError` for the real handler.
- `analyze_simple.dfy` (`AnalyzeSimple`): `Dispatch` for the mock handler.

Inputs the model takes as parameters:

- `keyConfigured`: whether `process.env.OPENAI_API_KEY` is truthy.
- `upstream: JsonValue -> Completion`: the outcome of awaiting the model for an image. It is either the reply's `message.content`, which may be `null`, or a thrown error with its `code` and `message`.
- `parse: string -> Option<JsonValue>`: `JSON.parse`, where `None` stands for a throw. Every normaliser property is proved for every such parser. `BraceLedGivesObject` is the one property of `JSON.parse` that the model assumes, and only where a lemma says so: a text that starts with `{` parses to an object or throws.

Where the code's behaviour is easy to misread, the model follows the code:

- `foodName` and `explanation` are replaced only when *falsy*, not when mistyped. A truthy number or object in those fields is kept.
- Keys of the parsed object other than the four are kept and sent on.
- If the reply has no `{ ... }` span and parses as a JSON array, the handler sets the four properties on the array. Those properties are lost when the array is serialised, so the client receives the bare array. `Normalized` returns that array. `NormalizedShape` proves the body is an array exactly when the extracted text parses as an array, and otherwise an object with the four fields. `ArrayOnlyWithoutSpan` proves that, with a parser that turns `{`-led text into objects, this happens only for a reply with no `{ ... }` span that is parsed whole.
- There is no "upstream unavailable" category: the code recognises only `insufficient_quota` and `invalid_api_key`; every other error is generic.
- A request with no body (`undefined` or `null`) is not answered with 400. Destructuring `req.body` throws a `TypeError`, and the outer `catch` answers 500 with that error's message. The message texts in `Http.DestructureImage` are those of the Node.js runtime. They are not written in the repository.

## Model

| member | source | states |
|---|---|---|
| Extraction.IndexFrom | api/analyze-food.js:83 | the position of the first `{`: it holds the character and none comes before it, or there is none |
| Extraction.LastIndex | api/analyze-food.js:83 | the position of the last `}`: it holds the character and none comes after it, or there is none |
| Extraction.ExtractJsonSpan | api/analyze-food.js:83 | there is no match exactly when no `}` follows a `{`; otherwise the result is the leftmost-longest span that the greedy `\{[\s\S]*\}` matches |
| Extraction.JsonText | api/analyze-food.js:84 | the text handed to `JSON.parse` is the whole reply when the pattern does not match, and otherwise the leftmost-longest match; `JsonTextFirstToLast` restates this as first `{` through last `}` |
| Extraction.JsonTextFirstToLast | api/analyze-food.js:83-84 | the parsed text is exactly the text from the first `{` through the last `}` when a `}` follows the first `{`, and the whole text otherwise |
| Extraction.LeftmostLongestUnique | api/analyze-food.js:83 | the leftmost-longest match is unique, so the extracted span is determined by the text |
| Extraction.NoBraceParsedWhole | api/analyze-food.js:83-84 | a text without `{` is handed to `JSON.parse` whole |
| Normalizer.Normalized | api/analyze-food.js:77-102 | the body is always an object or an array, and an object always has the analysis shape; the per-case contents are stated by `FailureGivesFallback`, `ParsedObjectDefaulted` and `NormalizedShape` |
| Normalizer.DefaultFields | api/analyze-food.js:88-91 | defaulting adds exactly the missing fields among the four and always yields the analysis shape; the per-field behaviour is stated by `TextFieldsDefaulting`, `IsSafeDefaulting` and `WarningsDefaulting` |
| Normalizer.Fallback | api/analyze-food.js:96-101 | the fallback record has the analysis shape and a non-empty warning list; its exact contents are stated by `FailureGivesFallback` |
| Normalizer.ToJson | api/analyze-food.js:96-101 | a record serialises to an object with exactly the four keys, with the analysis shape when both text fields are non-empty |
| Normalizer.Normalize | api/analyze-food.js:77-102 | the step-by-step normaliser (early fallback on each throw, then four in-place field updates) equals `Normalized`; its result is always an object or an array, and an object always has the analysis shape |
| Normalizer.DefaultInPlace | api/analyze-food.js:88-91 | overwriting the parsed object's fields one `if` at a time yields exactly the defaulted object `DefaultFields` |
| Normalizer.DefaultFieldsAsUpdates | api/analyze-food.js:88-91 | the defaulting step equals the four single-field assignments applied in source order |
| Normalizer.FallbackHasShape | api/analyze-food.js:96-101 | the fallback record has all four fields with the right types, and exactly the one canned warning |
| Normalizer.DefaultFieldsFrame | api/analyze-food.js:88-91 | defaulting adds the missing fields among the four and leaves every other key of the parsed object unchanged |
| Normalizer.DefaultedHasShape | api/analyze-food.js:88-91 | after defaulting, all four fields are present, the two text fields are truthy, `isSafe` is a boolean and `warnings` an array |
| Normalizer.TextFieldsDefaulting | api/analyze-food.js:88-90 | `foodName` becomes "Unknown food item" and `explanation` becomes "Unable to analyze the image properly." when falsy (an empty string included); a truthy value is kept |
| Normalizer.IsSafeDefaulting | api/analyze-food.js:89 | `isSafe` is kept if and only if it is a boolean (so `true` survives), and otherwise becomes `false` |
| Normalizer.WarningsDefaulting | api/analyze-food.js:91 | `warnings` is kept if and only if it is an array, and otherwise becomes `[]`; the canned advisory is never added on this path |
| Normalizer.DefaultFieldsFixedPoint | api/analyze-food.js:88-91 | an object comes out unchanged exactly when it already has the analysis shape |
| Normalizer.DefaultFieldsIdempotent | api/analyze-food.js:88-91 | defaulting twice gives the same object as defaulting once |
| Normalizer.FailureGivesFallback | api/analyze-food.js:93-101 | a `null` content, a parse failure or a parsed primitive (including `null`) gives exactly "Unknown food item", `false`, the content if truthy else the retry sentence, and the one-element canned warning list |
| Normalizer.ParsedObjectDefaulted | api/analyze-food.js:83-91 | when the extracted text parses to an object, the result is that object defaulted, and it has the analysis shape |
| Normalizer.NormalizedShape | api/analyze-food.js:81-104 | the normaliser is total: for every reply, `null` and `""` included, the result is an object or an array; an object has the analysis shape, and the result is an array exactly when the extracted text parses as an array |
| Normalizer.ArrayOnlyWithoutSpan | api/analyze-food.js:83-91 | with a parser that turns `{`-led text into objects, an array body comes only from a reply with no `{ ... }` span whose whole text parses as an array |
| Normalizer.SpanReplyHasShape | api/analyze-food.js:83-91 | when the reply contains a `{ ... }` span and `JSON.parse` turns `{`-led text into objects, the body always has all four fields |
| Normalizer.ExampleMissingWarnings | api/analyze-food.js:85-91 | a parsed `{foodName:"Apple", isSafe:true, explanation:"Looks fresh"}` yields exactly that record with `warnings` `[]` |
| Normalizer.ExampleNoBraces | api/analyze-food.js:83-101 | a reply with no `{` that does not parse gives the fallback; its explanation is the reply when non-empty and the retry sentence for `""` |
| Http.DestructureImage | api/analyze-food.js:31 | destructuring throws exactly for an `undefined` or `null` body; an object body yields its `image` property (absent if it has none), and any other body yields no image |
| Http.PassesGuards | api/analyze-food.js:9-35 | every guard passes exactly for a POST with a configured key whose body is an object with a truthy `image` |
| AnalyzeFood.ClassifyError | api/analyze-food.js:105-127 | always 500; "OpenAI API quota exceeded" exactly for `insufficient_quota`, "Invalid OpenAI API key" exactly for `invalid_api_key`, otherwise "Failed to analyze food image" with the message or "Unknown error occurred"; there is no other category |
| AnalyzeFood.Dispatch | api/analyze-food.js:9-127 | the status is 200, 400, 405 or 500; a JSON body with 200 comes only past every guard; every other status carries an error body; the guards are stated by `GuardOrder`, `UpstreamOnlyAfterGuards` and `UpstreamOutcome` |
| AnalyzeFood.GuardOrder | api/analyze-food.js:9-35 | OPTIONS gives 200 with no body; any other non-POST gives 405; a missing key gives 500 whatever the image; a missing body gives the generic 500; a falsy image gives 400 |
| AnalyzeFood.UpstreamOnlyAfterGuards | api/analyze-food.js:9-46 | unless every guard passes, the response does not depend on what the model would return |
| AnalyzeFood.UpstreamOutcome | api/analyze-food.js:46-127 | past the guards, a reply gives 200 with the normalised body, and a thrown error gives its classified response |
| AnalyzeFood.StatusCodes | api/analyze-food.js:9-127 | the status is always 200, 400, 405 or 500; it is 200 exactly for OPTIONS or a model reply; an object body always has the analysis shape |
| AnalyzeSimple.Dispatch | api/analyze-simple.js:6-50 | the status is 200, 400, 405 or 500; a 200 carries no body or the mock record; every other status carries an error body; the guards are stated by `GuardOrder` and `MockIgnoresImage` |
| AnalyzeSimple.GuardOrder | api/analyze-simple.js:6-28 | OPTIONS gives 200 first; any other non-POST gives 405; a missing key gives 500 and wins over a missing image; a missing body gives 500 "Failed to process request"; a falsy image gives 400 |
| AnalyzeSimple.MockIgnoresImage | api/analyze-simple.js:25-41 | past the guards the response is always 200 with the constant record ("Test Food Item", `true`, the test sentence, `[]`), whatever the image holds |
| AnalyzeSimple.AgreesWithAnalyzeFood | api/analyze-simple.js:6-28 | on every request that does not pass the guards and does not fail on destructuring `req.body`, the mock handler answers exactly as the real handler does |

## Left out

- The OpenAI SDK call, the dynamic `import('openai')` and the prompt construction (api/analyze-food.js:37-73) are network-bound and foreign. Their outcome is the `upstream` parameter. A failure of `response.choices[0].message.content` (line 77) counts as a thrown error of that outcome.
- `JSON.parse` is the `parse` parameter rather than a full JSON parser. Duplicate keys are therefore the parser's concern.
- JSON numbers are reals. A number beyond the double range, which `JSON.parse` turns into `Infinity` and `res.json` sends as `null`, is not modelled, and neither is double rounding. So a truthy `foodName` or `explanation` given as such a number reaches the client as `null`, which the analysis shape does not account for.
- JavaScript object key order is lost: objects are maps. So the serialised order of the keys is not modelled. In the source, keys that already exist keep their place and new ones are appended.
- A `code` that is not a string compares unequal to both recognised codes, so it is modelled as absent. The development-only `stack` field (api/analyze-food.js:126) is omitted, as it is in production.
- CORS headers, console logging and `process.env` reads are left out. The key is the boolean `keyConfigured`.
- A thrown `null` or `undefined` is left out: the outer `catch` itself would throw when reading `error.code`. A thrown string, number or boolean has no `code` or `message`, which is `Thrown(None, None)`.
- `src/App.js`, `api/debug.js`, `api/test.js` and `deploy.js` are UI, diagnostics and console output, and are not part of this model.
