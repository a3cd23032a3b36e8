/** The reply normaliser of analyze-food.js: it turns the model's untrusted
    text reply into the body the handler sends with status 200. */
module Normalizer {
  import opened Json
  import opened Extraction

  const UnknownFood := "Unknown food item"
  const ImproperAnalysis := "Unable to analyze the image properly."
  const RetryExplanation := "Unable to analyze the image. Please try again with a clearer image."
  const RetryWarning := "Unable to properly analyze the image. Please try again with a clearer image."

  /** The four fields the normaliser guarantees. */
  const FieldNames: set<string> := {"foodName", "isSafe", "explanation", "warnings"}

  /** A four-field analysis record with the intended types. */
  datatype AnalysisResult = AnalysisResult(
    foodName: string, isSafe: bool, explanation: string, warnings: seq<string>)

  /** The JSON object a record is serialised as. */
  function ToJson(a: AnalysisResult): (v: JsonValue)
    ensures v.JObject? && v.fields.Keys == FieldNames
    ensures a.foodName != "" && a.explanation != "" ==> HasAnalysisShape(v.fields)
  {
    JObject(map[
      "foodName" := JString(a.foodName),
      "isSafe" := JBool(a.isSafe),
      "explanation" := JString(a.explanation),
      "warnings" := JArray(seq(|a.warnings|, k requires 0 <= k < |a.warnings| => JString(a.warnings[k])))])
  }

  /** The record built in the `catch` of the inner `try`. */
  function Fallback(content: Option<string>): (a: AnalysisResult)
    ensures HasAnalysisShape(ToJson(a).fields)
    ensures a.warnings != []
  {
    AnalysisResult(
      UnknownFood, false,
      if TruthyString(content) then content.value else RetryExplanation,
      [RetryWarning])
  }

  /** What the normaliser promises of a parsed object once defaulted: all
      four fields present, the two text fields truthy, `isSafe` a boolean,
      `warnings` an array. */
  ghost predicate HasAnalysisShape(o: map<string, JsonValue>)
  {
    FieldNames <= o.Keys &&
    Truthy(Get(o, "foodName")) && IsBoolean(Get(o, "isSafe")) &&
    Truthy(Get(o, "explanation")) && IsArray(Get(o, "warnings"))
  }

  /** The value each field has after the defaulting step. */
  function FoodNameAfter(o: map<string, JsonValue>): JsonValue
  {
    if Truthy(Get(o, "foodName")) then o["foodName"] else JString(UnknownFood)
  }

  function IsSafeAfter(o: map<string, JsonValue>): JsonValue
  {
    if IsBoolean(Get(o, "isSafe")) then o["isSafe"] else JBool(false)
  }

  function ExplanationAfter(o: map<string, JsonValue>): JsonValue
  {
    if Truthy(Get(o, "explanation")) then o["explanation"] else JString(ImproperAnalysis)
  }

  function WarningsAfter(o: map<string, JsonValue>): JsonValue
  {
    if IsArray(Get(o, "warnings")) then o["warnings"] else JArray([])
  }

  /** The defaulting step on a parsed object: the four fields take their
      defaulted values, every other key keeps its value. */
  function DefaultFields(o: map<string, JsonValue>): (r: map<string, JsonValue>)
    ensures r.Keys == o.Keys + FieldNames
    ensures HasAnalysisShape(r)
  {
    o + map[
      "foodName" := FoodNameAfter(o),
      "isSafe" := IsSafeAfter(o),
      "explanation" := ExplanationAfter(o),
      "warnings" := WarningsAfter(o)]
  }

  /** The body the normaliser produces for a reply `content` (`None` is a
      `null` content) when `JSON.parse` behaves as `parse` (`None` is a throw).
      A `null` content throws at `content.match`; a parsed `null` throws when
      `foodName` is read; any other parsed primitive throws when `foodName`
      is assigned, since an ES module runs in strict mode. All of these land
      in the fallback. Properties assigned to a parsed array do not survive
      serialisation, so the array is sent as it was parsed. */
  function Normalized(content: Option<string>, parse: string -> Option<JsonValue>): (r: JsonValue)
    ensures r.JObject? || r.JArray?
    ensures r.JObject? ==> HasAnalysisShape(r.fields)
  {
    if content.None? then ToJson(Fallback(content))
    else
      match parse(JsonText(content.value))
      case Some(JObject(o)) => JObject(DefaultFields(o))
      case Some(JArray(items)) => JArray(items)
      case _ => ToJson(Fallback(content))
  }

  /** The normaliser block as the handler runs it: the `try` is an early
      return into the fallback at each point that throws, and the parsed
      object's fields are overwritten one `if` at a time. Its last two
      postconditions repeat `Normalized`'s for callers of the method. */
  method Normalize(content: Option<string>, parse: string -> Option<JsonValue>) returns (analysis: JsonValue)
    ensures analysis == Normalized(content, parse)
    ensures analysis.JObject? || analysis.JArray?
    ensures analysis.JObject? ==> HasAnalysisShape(analysis.fields)
  {
    if content.None? {
      analysis := ToJson(Fallback(content));
      return;
    }
    var jsonMatch := ExtractJsonSpan(content.value);
    var jsonString := if jsonMatch.Some? then jsonMatch.value else content.value;
    var parsed := parse(jsonString);
    if parsed.None? {
      analysis := ToJson(Fallback(content));
      return;
    }
    match parsed.value {
      case JObject(o) =>
        var fields := DefaultInPlace(o);
        DefaultedHasShape(o);
        analysis := JObject(fields);
      case JArray(items) =>
        analysis := JArray(items);
      case _ =>
        analysis := ToJson(Fallback(content));
    }
    FallbackHasShape(content);
  }

  /** The defaulting of api/analyze-food.js:88-91: the parsed object's fields overwritten one `if` at a time. */
  method DefaultInPlace(o: map<string, JsonValue>) returns (fields: map<string, JsonValue>)
    ensures fields == DefaultFields(o)
  {
    fields := o;
    if !Truthy(Get(fields, "foodName")) { fields := fields["foodName" := JString(UnknownFood)]; }
    assert fields == o["foodName" := FoodNameAfter(o)];
    if !IsBoolean(Get(fields, "isSafe")) { fields := fields["isSafe" := JBool(false)]; }
    assert fields == o["foodName" := FoodNameAfter(o)]["isSafe" := IsSafeAfter(o)];
    if !Truthy(Get(fields, "explanation")) { fields := fields["explanation" := JString(ImproperAnalysis)]; }
    assert fields == o["foodName" := FoodNameAfter(o)]["isSafe" := IsSafeAfter(o)]
                      ["explanation" := ExplanationAfter(o)];
    if !IsArray(Get(fields, "warnings")) { fields := fields["warnings" := JArray([])]; }
    DefaultFieldsAsUpdates(o);
  }

  /** The defaulting step is the four single-field updates in order. */
  lemma DefaultFieldsAsUpdates(o: map<string, JsonValue>)
    ensures DefaultFields(o) == o["foodName" := FoodNameAfter(o)]["isSafe" := IsSafeAfter(o)]
                                  ["explanation" := ExplanationAfter(o)]["warnings" := WarningsAfter(o)]
  {
  }

  /** The fallback record's warning list is exactly the one canned advisory;
      its shape is a corollary of `Fallback`'s contract. */
  lemma FallbackHasShape(content: Option<string>)
    ensures HasAnalysisShape(ToJson(Fallback(content)).fields)
    ensures ToJson(Fallback(content)).fields["warnings"] == JArray([JString(RetryWarning)])
  {
  }

  /** Defaulting touches only the four fields and adds any that are missing. */
  lemma DefaultFieldsFrame(o: map<string, JsonValue>)
    ensures DefaultFields(o).Keys == o.Keys + FieldNames
    ensures forall k :: k in o && k !in FieldNames ==> DefaultFields(o)[k] == o[k]
  {
  }

  /** After defaulting the object always has the analysis shape: a corollary
      of `DefaultFields`'s contract, named for use in proofs. */
  lemma DefaultedHasShape(o: map<string, JsonValue>)
    ensures HasAnalysisShape(DefaultFields(o))
  {
  }

  /** `foodName` and `explanation` are replaced exactly when falsy, so an
      empty string is replaced too; a truthy value is kept as it is. */
  lemma TextFieldsDefaulting(o: map<string, JsonValue>)
    ensures Truthy(Get(o, "foodName")) ==> DefaultFields(o)["foodName"] == o["foodName"]
    ensures !Truthy(Get(o, "foodName")) ==> DefaultFields(o)["foodName"] == JString(UnknownFood)
    ensures Truthy(Get(o, "explanation")) ==> DefaultFields(o)["explanation"] == o["explanation"]
    ensures !Truthy(Get(o, "explanation")) ==> DefaultFields(o)["explanation"] == JString(ImproperAnalysis)
  {
  }

  /** `isSafe` is kept if and only if it is a boolean, and is `false` otherwise. */
  lemma IsSafeDefaulting(o: map<string, JsonValue>)
    ensures ("isSafe" in o && DefaultFields(o)["isSafe"] == o["isSafe"]) <==> IsBoolean(Get(o, "isSafe"))
    ensures !IsBoolean(Get(o, "isSafe")) ==> DefaultFields(o)["isSafe"] == JBool(false)
  {
  }

  /** `warnings` is kept if and only if it is an array, and is `[]` otherwise:
      the canned advisory is never added on this path. */
  lemma WarningsDefaulting(o: map<string, JsonValue>)
    ensures ("warnings" in o && DefaultFields(o)["warnings"] == o["warnings"]) <==> IsArray(Get(o, "warnings"))
    ensures !IsArray(Get(o, "warnings")) ==> DefaultFields(o)["warnings"] == JArray([])
  {
  }

  /** An object is left unchanged exactly when it already has the shape. */
  lemma DefaultFieldsFixedPoint(o: map<string, JsonValue>)
    ensures DefaultFields(o) == o <==> HasAnalysisShape(o)
  {
  }

  /** Defaulting twice is the same as defaulting once. */
  lemma DefaultFieldsIdempotent(o: map<string, JsonValue>)
    ensures DefaultFields(DefaultFields(o)) == DefaultFields(o)
  {
  }

  /** Every failure to extract or parse gives exactly the fallback record:
      a `null` content, a text `parse` rejects, and a parsed primitive. */
  lemma FailureGivesFallback(content: Option<string>, parse: string -> Option<JsonValue>)
    requires content.None? || parse(JsonText(content.value)).None? ||
             !(parse(JsonText(content.value)).value.JObject? || parse(JsonText(content.value)).value.JArray?)
    ensures Normalized(content, parse) == ToJson(AnalysisResult(
      UnknownFood, false,
      if TruthyString(content) then content.value else RetryExplanation,
      [RetryWarning]))
  {
  }

  /** A parsed object is defaulted; the text handed to `parse` is the span
      from the first `{` to the last `}` when there is one. */
  lemma ParsedObjectDefaulted(text: string, parse: string -> Option<JsonValue>, o: map<string, JsonValue>)
    requires parse(JsonText(text)) == Some(JObject(o))
    ensures Normalized(Some(text), parse) == JObject(DefaultFields(o))
    ensures HasAnalysisShape(Normalized(Some(text), parse).fields)
  {
  }

  /** The normaliser is total: every reply, `null` and `""` included, gives an
      object with the analysis shape (these two clauses are corollaries of
      `Normalized`'s contract), except when the extracted text parses as a
      JSON array, which is sent back as that array. */
  lemma NormalizedShape(content: Option<string>, parse: string -> Option<JsonValue>)
    ensures Normalized(content, parse).JObject? || Normalized(content, parse).JArray?
    ensures Normalized(content, parse).JObject? ==> HasAnalysisShape(Normalized(content, parse).fields)
    ensures Normalized(content, parse).JArray? <==>
      (content.Some? && parse(JsonText(content.value)).Some? && parse(JsonText(content.value)).value.JArray?)
  {
  }

  /** A parser that, like `JSON.parse`, turns a text starting with `{` into an
      object or rejects it. */
  ghost predicate BraceLedGivesObject(parse: string -> Option<JsonValue>)
  {
    forall s :: |s| > 0 && s[0] == '{' && parse(s).Some? ==> parse(s).value.JObject?
  }

  /** When the reply contains a `{ ... }` span, the body always has all four fields. */
  lemma SpanReplyHasShape(text: string, parse: string -> Option<JsonValue>)
    requires BraceLedGivesObject(parse)
    requires ExtractJsonSpan(text).Some?
    ensures Normalized(Some(text), parse).JObject?
    ensures HasAnalysisShape(Normalized(Some(text), parse).fields)
  {
    var i, j :| LeftmostLongest(text, i, j) && ExtractJsonSpan(text).value == text[i..j + 1];
    assert JsonText(text)[0] == '{';
    NormalizedShape(Some(text), parse);
  }

  /** With a parser that turns `{`-led text into objects, the body can be an
      array only when the reply has no `{ ... }` span and is parsed whole. */
  lemma ArrayOnlyWithoutSpan(content: Option<string>, parse: string -> Option<JsonValue>)
    requires BraceLedGivesObject(parse)
    ensures Normalized(content, parse).JArray? ==> content.Some? && ExtractJsonSpan(content.value).None?
    ensures Normalized(content, parse).JArray? ==> parse(content.value).Some? && parse(content.value).value.JArray?
  {
    if content.Some? && ExtractJsonSpan(content.value).Some? {
      SpanReplyHasShape(content.value, parse);
    }
  }

  /** A reply whose span parses to an object with a truthy `foodName`, a `true` `isSafe`, a truthy `explanation` and no
      `warnings` yields that record with an empty warning list. */
  lemma ExampleMissingWarnings(text: string, parse: string -> Option<JsonValue>)
    requires parse(JsonText(text)) == Some(JObject(map[
      "foodName" := JString("Apple"), "isSafe" := JBool(true), "explanation" := JString("Looks fresh")]))
    ensures Normalized(Some(text), parse) == ToJson(AnalysisResult("Apple", true, "Looks fresh", []))
  {
    var expected := ToJson(AnalysisResult("Apple", true, "Looks fresh", []));
    assert expected.fields["warnings"] == JArray([]);
    assert Normalized(Some(text), parse).fields == expected.fields;
  }

  /** A reply with no `{` that `parse` rejects gives the fallback, whose explanation is the reply itself when
      it is not empty. */
  lemma ExampleNoBraces(text: string, parse: string -> Option<JsonValue>)
    requires '{' !in text
    requires parse(text).None?
    ensures Normalized(Some(text), parse) == ToJson(Fallback(Some(text)))
    ensures text != "" ==> Normalized(Some(text), parse).fields["explanation"] == JString(text)
    ensures text == "" ==> Normalized(Some(text), parse).fields["explanation"] == JString(RetryExplanation)
  {
  }
}
