/**
 * The shared record shapes (`thumbnailRequests`, `dailyUsage`) and the zod schemas
 * as acceptance predicates over parsed JSON request bodies.
 */
module Schema {

  import opened Wrappers
  import opened Text

  /** A parsed JSON value. Numbers are exact reals. */
  datatype Json =
    | JNull
    | JBool(b: bool)
    | JNumber(n: real)
    | JString(s: string)
    | JArray(items: seq<Json>)
    | JObject(fields: map<string, Json>)

  /** Reading a property of a request body: objects have their keys, anything else has none. */
  function Field(body: Json, key: string): (r: Option<Json>)
    ensures r.Some? <==> body.JObject? && key in body.fields
  {
    if body.JObject? && key in body.fields then Some(body.fields[key]) else None
  }

  /** JavaScript truthiness of a property read; a missing property is `undefined`, which is falsy. */
  predicate Truthy(v: Option<Json>) {
    match v
    case None => false
    case Some(JNull) => false
    case Some(JBool(b)) => b
    case Some(JNumber(n)) => n != 0.0
    case Some(JString(s)) => s != []
    case Some(_) => true
  }

  /** An image as the composer describes it; the quality score is in tenths (80 means 8.0). */
  datatype ImageDescriptor = ImageDescriptor(url: string, model: string, qualityTenths: int)

  /** `ThumbnailGeneration`: what the composer returns and the generate endpoint echoes. */
  datatype Generation = Generation(
    images: seq<ImageDescriptor>,
    generationTime: int,
    selectedModel: string,
    reasoning: string)

  /** A row of `thumbnailRequests`; nullable columns are options. */
  datatype ThumbnailRequest = ThumbnailRequest(
    id: string,
    prompt: string,
    style: string,
    aspectRatio: string,
    selectedModel: string,
    modelReasoning: Option<string>,
    generatedImages: seq<ImageDescriptor>,
    generationTime: Option<int>,
    qualityScore: Option<int>,
    createdAt: int)

  /** A row of `dailyUsage`. The in-memory store never keeps a null count. */
  datatype DailyUsage = DailyUsage(
    id: string,
    ipAddress: string,
    date: string,
    generationCount: int,
    createdAt: int)

  /** `InsertThumbnailRequest` after validation: `imageCount` already defaulted. */
  datatype InsertThumbnailRequest = InsertThumbnailRequest(
    prompt: string,
    style: string,
    aspectRatio: string,
    imageCount: real)

  /** `InsertDailyUsage`: the count column is optional on insert. */
  datatype InsertDailyUsage = InsertDailyUsage(ipAddress: string, date: string, generationCount: Option<int>)

  datatype IssueKind = Required | InvalidType | TooSmall | TooBig

  /** One zod issue: the path of the offending field (empty for the body itself) and its kind. */
  datatype Issue = Issue(path: seq<string>, kind: IssueKind)

  const DefaultImageCount: real := 5.0
  const MinImageCount: real := 1.0
  const MaxImageCount: real := 20.0

  /** The `varchar` lengths of the `style` and `aspect_ratio` columns; `prompt` is `text`. */
  const MaxStyleLength: nat := 50
  const MaxAspectRatioLength: nat := 20

  /**
   * Issues of a required string field (`prompt`, `style`, `aspectRatio`): the column's
   * `varchar` length, when it has one, bounds the string's JavaScript length.
   */
  function StringFieldIssues(body: Json, key: string, maxLength: Option<nat>): seq<Issue> {
    match Field(body, key)
    case None => [Issue([key], Required)]
    case Some(JString(s)) =>
      if maxLength.Some? && Utf16Length(s) > maxLength.value then [Issue([key], TooBig)] else []
    case Some(_) => [Issue([key], InvalidType)]
  }

  /** Issues of `imageCount: z.number().min(1).max(20).optional()`. */
  function ImageCountIssues(body: Json): seq<Issue> {
    match Field(body, "imageCount")
    case None => []
    case Some(JNumber(n)) =>
      if n < MinImageCount then [Issue(["imageCount"], TooSmall)]
      else if n > MaxImageCount then [Issue(["imageCount"], TooBig)]
      else []
    case Some(_) => [Issue(["imageCount"], InvalidType)]
  }

  /** `insertThumbnailRequestSchema.safeParse(body)`: all issues in field order, or the picked fields. */
  function ParseInsertRequest(body: Json): Result<InsertThumbnailRequest, seq<Issue>> {
    if !body.JObject? then Err([Issue([], InvalidType)])
    else
      var issues := StringFieldIssues(body, "prompt", None)
        + StringFieldIssues(body, "style", Some(MaxStyleLength))
        + StringFieldIssues(body, "aspectRatio", Some(MaxAspectRatioLength))
        + ImageCountIssues(body);
      if issues != [] then Err(issues)
      else
        Ok(InsertThumbnailRequest(
          body.fields["prompt"].s,
          body.fields["style"].s,
          body.fields["aspectRatio"].s,
          if "imageCount" in body.fields then body.fields["imageCount"].n else DefaultImageCount))
  }

  /** What the insert schema accepts, stated field by field. */
  predicate AcceptedBody(body: Json) {
    && body.JObject?
    && "prompt" in body.fields && body.fields["prompt"].JString?
    && "style" in body.fields && body.fields["style"].JString?
    && Utf16Length(body.fields["style"].s) <= MaxStyleLength
    && "aspectRatio" in body.fields && body.fields["aspectRatio"].JString?
    && Utf16Length(body.fields["aspectRatio"].s) <= MaxAspectRatioLength
    && ("imageCount" in body.fields ==>
          body.fields["imageCount"].JNumber?
          && MinImageCount <= body.fields["imageCount"].n <= MaxImageCount)
  }

  /**
   * The parser accepts exactly the accepted bodies; it keeps the three strings as sent
   * (the empty string included), within the column lengths, and defaults the count to 5; a rejection lists at
   * least one issue and every issue names one of the four fields or the body itself.
   */
  lemma ParseInsertRequestSound(body: Json)
    ensures ParseInsertRequest(body).Ok? <==> AcceptedBody(body)
    ensures ParseInsertRequest(body).Ok? ==>
      var v := ParseInsertRequest(body).value;
      && JString(v.prompt) == body.fields["prompt"]
      && JString(v.style) == body.fields["style"]
      && JString(v.aspectRatio) == body.fields["aspectRatio"]
      && (if "imageCount" in body.fields then JNumber(v.imageCount) == body.fields["imageCount"]
          else v.imageCount == DefaultImageCount)
      && MinImageCount <= v.imageCount <= MaxImageCount
      && Utf16Length(v.style) <= MaxStyleLength
      && Utf16Length(v.aspectRatio) <= MaxAspectRatioLength
    ensures ParseInsertRequest(body).Err? ==>
      var issues := ParseInsertRequest(body).error;
      && |issues| > 0
      && forall i :: 0 <= i < |issues| ==>
           issues[i].path in {[], ["prompt"], ["style"], ["aspectRatio"], ["imageCount"]}
  {
  }

  /**
   * A body that is accepted except that its style is longer than the column allows is
   * refused, and the refusal names the style as too long.
   */
  lemma OverlongStyleRejected(fields: map<string, Json>, style: string)
    requires AcceptedBody(JObject(fields))
    requires Utf16Length(style) > MaxStyleLength
    ensures var r := ParseInsertRequest(JObject(fields["style" := JString(style)]));
      r.Err? && Issue(["style"], TooBig) in r.error
  {
    var body := JObject(fields["style" := JString(style)]);
    assert StringFieldIssues(body, "style", Some(MaxStyleLength)) == [Issue(["style"], TooBig)];
  }

  /** The same for an aspect ratio longer than its column. */
  lemma OverlongAspectRatioRejected(fields: map<string, Json>, ratio: string)
    requires AcceptedBody(JObject(fields))
    requires Utf16Length(ratio) > MaxAspectRatioLength
    ensures var r := ParseInsertRequest(JObject(fields["aspectRatio" := JString(ratio)]));
      r.Err? && Issue(["aspectRatio"], TooBig) in r.error
  {
    var body := JObject(fields["aspectRatio" := JString(ratio)]);
    assert StringFieldIssues(body, "aspectRatio", Some(MaxAspectRatioLength)) == [Issue(["aspectRatio"], TooBig)];
  }

  /** Only the four schema keys are read: any other key the client sends is ignored. */
  lemma ParseIgnoresOtherKeys(fields: map<string, Json>, key: string, value: Json)
    requires key !in {"prompt", "style", "aspectRatio", "imageCount"}
    ensures ParseInsertRequest(JObject(fields[key := value])) == ParseInsertRequest(JObject(fields))
  {
  }

  /** `aiModelSelectionSchema`: a known tag and a confidence in [0, 1] (in hundredths). */
  predicate ValidModelSelection(selectedModel: string, confidenceHundredths: int) {
    selectedModel in {"stable-diffusion", "flux", "sdxl"} && 0 <= confidenceHundredths <= 100
  }

  /** `thumbnailGenerationSchema`: every image score lies in [1, 10] (in tenths). */
  predicate ValidGeneration(g: Generation) {
    forall i :: 0 <= i < |g.images| ==> 10 <= g.images[i].qualityTenths <= 100
  }
}
