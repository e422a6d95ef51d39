/**
 * The HTTP route handlers: usage lookup, prompt analysis, thumbnail generation,
 * thumbnail lookup and the placeholder variation endpoint. A request is its parsed
 * JSON body plus the values the framework and the clock provide (client address,
 * today's date, the current time, fresh ids, random draws, elapsed time).
 */
module Routes {

  import opened Wrappers
  import opened Text
  import opened Schema
  import opened Selector
  import opened Composer
  import opened Storage

  /** What a handler sends back. */
  datatype Body =
    | UsageBody(generationsLeft: int, generationCount: int)
    | SelectionBody(selection: Selection)
    | GenerationBody(id: string, generation: Generation)
    | RecordBody(record: ThumbnailRequest)
    | VariationBody(originalUrl: Json, variationUrl: Json, variationType: Json, model: string,
                    processingTimeTenths: int, id: string)
    | MessageBody(message: string)
    | InvalidBody(message: string, errors: seq<Issue>)

  datatype Reply = Reply(status: int, body: Body)

  /** `req.ip || req.connection.remoteAddress || "unknown"`: the first non-empty address. */
  function ClientAddress(ip: Option<string>, remoteAddress: Option<string>): (r: string)
    ensures r != []
    ensures ip.Some? && ip.value != [] ==> r == ip.value
    ensures (ip.None? || ip.value == []) && remoteAddress.Some? && remoteAddress.value != [] ==> r == remoteAddress.value
    ensures (ip.None? || ip.value == []) && (remoteAddress.None? || remoteAddress.value == []) ==> r == "unknown"
  {
    if ip.Some? && ip.value != [] then ip.value
    else if remoteAddress.Some? && remoteAddress.value != [] then remoteAddress.value
    else "unknown"
  }

  const UnlimitedGenerations := 999

  /**
   * `GET /api/usage/:date`: a fixed allowance and the day's count for the client's
   * address, 0 when no row exists.
   */
  function UsageHandler(st: MemStorage, ip: Option<string>, remoteAddress: Option<string>, date: string): (r: Reply)
    reads st
    requires st.Valid()
    ensures r.status == 200 && r.body.UsageBody? && r.body.generationsLeft == 999
    ensures var key := UsageKey(ClientAddress(ip, remoteAddress), date);
      && (key !in st.dailyUsage ==> r.body.generationCount == 0)
      && (key in st.dailyUsage ==> r.body.generationCount == st.dailyUsage[key].generationCount)
  {
    var usage := st.GetDailyUsage(ClientAddress(ip, remoteAddress), date);
    Reply(200, UsageBody(UnlimitedGenerations, if usage.Some? then usage.value.generationCount else 0))
  }

  /** `String.prototype.toLowerCase` exists only on strings; on anything else the call throws. */
  predicate LowerableField(v: Option<Json>) {
    v.Some? && v.value.JString?
  }

  /**
   * `POST /api/analyze-prompt`: 400 when one of the three fields is missing or falsy;
   * 500 when the prompt or style is truthy but not a string (lowering it throws);
   * otherwise the rule-based selection. The selector never reads the ratio, so it is
   * passed on as the empty string whatever its JSON type.
   */
  function AnalyzePrompt(body: Json): (r: Reply)
    ensures r.status in {200, 400, 500}
    ensures r.status == 400 <==>
      !Truthy(Field(body, "prompt")) || !Truthy(Field(body, "style")) || !Truthy(Field(body, "aspectRatio"))
    ensures r.status == 500 <==>
      (r.status != 400 && !(LowerableField(Field(body, "prompt")) && LowerableField(Field(body, "style"))))
    ensures r.status == 200 ==>
      var p := body.fields["prompt"].s;
      var s := body.fields["style"].s;
      && p != [] && s != []
      && r.body == SelectionBody(SelectBestModel(p, s, ""))
  {
    var prompt := Field(body, "prompt");
    var style := Field(body, "style");
    var aspectRatio := Field(body, "aspectRatio");
    if !Truthy(prompt) || !Truthy(style) || !Truthy(aspectRatio) then
      Reply(400, MessageBody("Missing required fields"))
    else if !LowerableField(prompt) || !LowerableField(style) then
      Reply(500, MessageBody("Failed to analyze prompt"))
    else
      Reply(200, SelectionBody(SelectBestModel(prompt.value.s, style.value.s, "")))
  }

  /** The sum of a batch's scores, in tenths. */
  function SumTenths(images: seq<ImageDescriptor>): int {
    if images == [] then 0 else SumTenths(images[..|images| - 1]) + images[|images| - 1].qualityTenths
  }

  /**
   * `Math.round(sum / count)` over the scores, with `|| null`: an empty batch divides
   * zero by zero, and the resulting NaN is falsy.
   */
  function MeanQualityScore(images: seq<ImageDescriptor>): (r: Option<int>)
    ensures r.None? <==> images == []
    ensures r.Some? ==>
      var n := |images|;
      10 * n * r.value - 5 * n <= SumTenths(images) < 10 * n * r.value + 5 * n
  {
    if images == [] then None
    else
      var n := |images|;
      var q := (SumTenths(images) + 5 * n) / (10 * n);
      assert q * (10 * n) <= SumTenths(images) + 5 * n < q * (10 * n) + 10 * n;
      Some(q)
  }

  /** A batch whose scores lie in [lo, hi] tenths sums to between `lo` and `hi` times its size. */
  lemma {:induction false} SumTenthsBounds(images: seq<ImageDescriptor>, lo: int, hi: int)
    requires forall i :: 0 <= i < |images| ==> lo <= images[i].qualityTenths <= hi
    ensures lo * |images| <= SumTenths(images) <= hi * |images|
  {
    if images != [] {
      var init := images[..|images| - 1];
      assert forall i :: 0 <= i < |init| ==> init[i] == images[i];
      SumTenthsBounds(init, lo, hi);
    }
  }

  /** Scores between 8.0 and 10.0 round to a stored mean of 8, 9 or 10. */
  lemma MeanOfComposedScores(images: seq<ImageDescriptor>)
    requires images != []
    requires forall i :: 0 <= i < |images| ==> 80 <= images[i].qualityTenths <= 100
    ensures MeanQualityScore(images).Some? && 8 <= MeanQualityScore(images).value <= 10
  {
    SumTenthsBounds(images, 80, 100);
    var n, q := |images|, MeanQualityScore(images).value;
    if q < 8 {
      ScaleMonotone(n, q, 7);
      assert false;
    }
    if q > 10 {
      ScaleMonotone(n, 11, q);
      assert false;
    }
  }

  /** Multiplying by a positive count keeps the order. */
  lemma ScaleMonotone(n: int, a: int, b: int)
    requires n > 0 && a <= b
    ensures n * a <= n * b
  {
    assert n * b - n * a == n * (b - a);
  }

  /** The validated count is at most 20, so twenty draws always suffice. */
  lemma AtMostTwentyIterations(imageCount: real)
    requires imageCount <= MaxImageCount
    ensures IterationCount(imageCount) <= 20
  {
  }

  /** The validated count is at least 1, so every batch has an image. */
  lemma AtLeastOneIteration(imageCount: real)
    requires imageCount >= MinImageCount
    ensures IterationCount(imageCount) >= 1
  {
  }

  /** The record `POST /api/generate-thumbnail` stores for a validated request and its batch. */
  function StoredRequest(req: InsertThumbnailRequest, selection: Selection, g: Generation): NewThumbnailRequest {
    NewThumbnailRequest(
      req.prompt, req.style, req.aspectRatio, selection.selectedModel.Name(),
      Some(selection.reasoning), Some(g.images), Some(g.generationTime), MeanQualityScore(g.images))
  }

  /** A validated request always asks for between 1 and 20 images. */
  lemma ParsedCountInRange(body: Json)
    requires ParseInsertRequest(body).Ok?
    ensures MinImageCount <= ParseInsertRequest(body).value.imageCount <= MaxImageCount
  {
    ParseInsertRequestSound(body);
  }

  /**
   * The success path of `POST /api/generate-thumbnail` for a validated request: the
   * request is analysed, composed, stored under the fresh id and counted once
   * against today's usage; the reply is the id and the batch. The clock is read
   * twice: `storedAt` when the request is stored, `usageAt` when usage is counted.
   */
  method GenerateAccepted(st: MemStorage, req: InsertThumbnailRequest, ipAddress: string, today: string,
                          baseTime: nat, draws: seq<Draw>, elapsedMs: nat,
                          requestId: string, usageId: string, storedAt: int, usageAt: int)
    returns (reply: Reply)
    requires st.Valid()
    requires MinImageCount <= req.imageCount <= MaxImageCount
    requires |draws| >= 20 && forall k :: 0 <= k < |draws| ==> ValidDraw(draws[k])
    modifies st
    ensures st.Valid()
    ensures var selection := SelectBestModel(req.prompt, req.style, req.aspectRatio);
      && reply.status == 200 && reply.body.GenerationBody?
      && reply.body.id == requestId
      && reply.body.generation.selectedModel == selection.selectedModel.Name()
      && reply.body.generation.reasoning == selection.reasoning
      && reply.body.generation.generationTime == RoundedSeconds(elapsedMs)
      && |reply.body.generation.images| == IterationCount(req.imageCount) <= 20
      && (forall i {:trigger draws[i]} :: 0 <= i < |reply.body.generation.images| ==>
            reply.body.generation.images[i] ==
              Descriptor(SanitizePrompt(req.prompt, req.style), Dimensions(req.aspectRatio),
                         selection.selectedModel.Name(), baseTime, i, draws[i]))
      && (forall i :: 0 <= i < |reply.body.generation.images| ==>
            80 <= reply.body.generation.images[i].qualityTenths <= 100)
      && st.thumbnailRequests ==
           old(st.thumbnailRequests)[requestId := NewRecord(StoredRequest(req, selection, reply.body.generation), requestId, storedAt)]
      && st.dailyUsage == IncrementUsage(old(st.dailyUsage), ipAddress, today, usageId, usageAt)
  {
    AtMostTwentyIterations(req.imageCount);
    var selection := SelectBestModel(req.prompt, req.style, req.aspectRatio);
    var result := GenerateImages(req.prompt, req.style, req.aspectRatio, selection.selectedModel.Name(),
                                 selection.reasoning, req.imageCount, baseTime, draws, elapsedMs);
    var record := st.CreateThumbnailRequest(StoredRequest(req, selection, result), requestId, storedAt);
    var _ := st.IncrementDailyUsage(ipAddress, today, usageId, usageAt);
    reply := Reply(200, GenerationBody(record.id, result));
  }

  /**
   * `POST /api/generate-thumbnail`: an invalid body gets 400 with the schema's issues
   * and changes nothing; a valid one takes the success path.
   */
  method GenerateThumbnail(st: MemStorage, body: Json, ip: Option<string>, remoteAddress: Option<string>, today: string,
                           baseTime: nat, draws: seq<Draw>, elapsedMs: nat,
                           requestId: string, usageId: string, storedAt: int, usageAt: int)
    returns (reply: Reply)
    requires st.Valid()
    requires |draws| >= 20 && forall k :: 0 <= k < |draws| ==> ValidDraw(draws[k])
    modifies st
    ensures st.Valid()
    ensures ParseInsertRequest(body).Err? ==>
      && reply == Reply(400, InvalidBody("Invalid request data", ParseInsertRequest(body).error))
      && st.thumbnailRequests == old(st.thumbnailRequests)
      && st.dailyUsage == old(st.dailyUsage)
    ensures ParseInsertRequest(body).Ok? ==>
      var req := ParseInsertRequest(body).value;
      var selection := SelectBestModel(req.prompt, req.style, req.aspectRatio);
      && reply.status == 200 && reply.body.GenerationBody?
      && reply.body.id == requestId
      && reply.body.generation.selectedModel == selection.selectedModel.Name()
      && reply.body.generation.reasoning == selection.reasoning
      && |reply.body.generation.images| == IterationCount(req.imageCount) <= 20
      && (forall i :: 0 <= i < |reply.body.generation.images| ==>
            reply.body.generation.images[i] ==
              Descriptor(SanitizePrompt(req.prompt, req.style), Dimensions(req.aspectRatio),
                         selection.selectedModel.Name(), baseTime, i, draws[i]))
      && st.thumbnailRequests ==
           old(st.thumbnailRequests)[requestId := NewRecord(StoredRequest(req, selection, reply.body.generation), requestId, storedAt)]
      && st.dailyUsage == IncrementUsage(old(st.dailyUsage), ClientAddress(ip, remoteAddress), today, usageId, usageAt)
  {
    var parsed := ParseInsertRequest(body);
    if parsed.Err? {
      return Reply(400, InvalidBody("Invalid request data", parsed.error));
    }
    ParsedCountInRange(body);
    reply := GenerateAccepted(st, parsed.value, ClientAddress(ip, remoteAddress), today, baseTime, draws, elapsedMs, requestId, usageId, storedAt, usageAt);
  }

  /** `GET /api/thumbnail/:id`: the stored row, or 404. */
  function ThumbnailHandler(st: MemStorage, id: string): (r: Reply)
    reads st
    requires st.Valid()
    ensures r.status in {200, 404}
    ensures r.status == 200 <==> id in st.thumbnailRequests
    ensures r.status == 200 ==> r.body == RecordBody(st.thumbnailRequests[id]) && r.body.record.id == id
  {
    match st.GetThumbnailRequest(id)
    case Some(record) => Reply(200, RecordBody(record))
    case None => Reply(404, MessageBody("Thumbnail request not found"))
  }

  /**
   * The row stored for a non-empty batch of composed images repeats the request and the
   * selection (whose reasoning is never empty, so never nulled), holds the batch itself, and has a mean score of 8, 9 or 10.
   */
  lemma StoredRecordMatches(req: InsertThumbnailRequest, selection: Selection, g: Generation, id: string, now: int)
    requires selection.reasoning != [] && g.images != []
    requires forall i :: 0 <= i < |g.images| ==> 80 <= g.images[i].qualityTenths <= 100
    ensures var r := NewRecord(StoredRequest(req, selection, g), id, now);
      && r.id == id
      && r.prompt == req.prompt && r.style == req.style && r.aspectRatio == req.aspectRatio
      && r.selectedModel == selection.selectedModel.Name()
      && r.modelReasoning == Some(selection.reasoning)
      && r.generatedImages == g.images
      && r.qualityScore.Some? && 8 <= r.qualityScore.value <= 10
  {
    MeanOfComposedScores(g.images);
    NewRecordFields(StoredRequest(req, selection, g), id, now);
  }

  /**
   * After a successful generation the thumbnail route returns the stored row: same
   * prompt, style, ratio and model tag as the reply, the very images the reply
   * carried, the reasoning, and a mean score of 8, 9 or 10; the usage route
   * reports one more generation for the day.
   */
  method GenerateThenFetch(st: MemStorage, body: Json, ip: Option<string>, remoteAddress: Option<string>, today: string,
                           baseTime: nat, draws: seq<Draw>, elapsedMs: nat,
                           requestId: string, usageId: string, storedAt: int, usageAt: int)
    returns (generated: Reply, fetched: Reply, usage: Reply)
    requires st.Valid()
    requires |draws| >= 20 && forall k :: 0 <= k < |draws| ==> ValidDraw(draws[k])
    requires ParseInsertRequest(body).Ok?
    modifies st
    ensures st.Valid()
    ensures var req := ParseInsertRequest(body).value;
      && generated.status == 200 && fetched.status == 200 && usage.status == 200
      && generated.body.GenerationBody? && fetched.body.RecordBody?
      && fetched.body.record.id == generated.body.id == requestId
      && fetched.body.record.prompt == req.prompt
      && fetched.body.record.style == req.style
      && fetched.body.record.aspectRatio == req.aspectRatio
      && fetched.body.record.selectedModel == generated.body.generation.selectedModel
      && fetched.body.record.modelReasoning == Some(generated.body.generation.reasoning)
      && fetched.body.record.generatedImages == generated.body.generation.images
      && fetched.body.record.qualityScore.Some?
      && 8 <= fetched.body.record.qualityScore.value <= 10
    ensures var key := UsageKey(ClientAddress(ip, remoteAddress), today);
      usage.body.UsageBody? && usage.body.generationCount ==
      (if key in old(st.dailyUsage) then old(st.dailyUsage)[key].generationCount else 0) + 1
  {
    var ipAddress := ClientAddress(ip, remoteAddress);
    ghost var before := st.dailyUsage;
    IncrementUsageEffect(before, ipAddress, today, usageId, usageAt);
    var req := ParseInsertRequest(body).value;
    ParsedCountInRange(body);
    generated := GenerateAccepted(st, req, ipAddress, today, baseTime, draws, elapsedMs, requestId, usageId, storedAt, usageAt);
    var selection := SelectBestModel(req.prompt, req.style, req.aspectRatio);
    var g := generated.body.generation;
    AtLeastOneIteration(req.imageCount);
    StoredRecordMatches(req, selection, g, requestId, storedAt);
    ghost var record := NewRecord(StoredRequest(req, selection, g), requestId, storedAt);
    assert st.thumbnailRequests[requestId] == record;
    fetched := ThumbnailHandler(st, requestId);
    assert fetched.body.record == record;
    ghost var key := UsageKey(ipAddress, today);
    assert st.dailyUsage[key].generationCount == (if key in before then before[key].generationCount else 0) + 1;
    usage := UsageHandler(st, ip, remoteAddress, today);
  }

  const VariationModel := "pollinations-variation"

  /**
   * `POST /api/create-variation`: 400 without a truthy `imageUrl`; otherwise the URL
   * echoed as both original and variation, the variation type (`style` only when
   * the key is absent), a fixed model tag, 0.5 s, and an id from the clock.
   */
  function CreateVariation(body: Json, nowMs: nat): (r: Reply)
    ensures r.status == 400 <==> !Truthy(Field(body, "imageUrl"))
    ensures r.status != 400 ==>
      && r.status == 200 && r.body.VariationBody?
      && r.body.originalUrl == r.body.variationUrl == body.fields["imageUrl"]
      && r.body.variationType == (if "variationType" in body.fields then body.fields["variationType"] else JString("style"))
      && r.body.model == VariationModel
      && r.body.processingTimeTenths == 5
      && StartsWith(r.body.id, "variation-")
      && ParseNat(r.body.id[|"variation-"|..]) == Some(nowMs)
  {
    var imageUrl := Field(body, "imageUrl");
    if !Truthy(imageUrl) then Reply(400, MessageBody("Image URL is required"))
    else
      var variationType := match Field(body, "variationType") case Some(v) => v case None => JString("style");
      var id := "variation-" + Decimal(nowMs);
      assert id[|"variation-"|..] == Decimal(nowMs);
      DecimalRoundTrip(nowMs);
      Reply(200, VariationBody(imageUrl.value, imageUrl.value, variationType, VariationModel, 5, id))
  }

  /** A `null` variation type is echoed: the default only replaces a missing key. */
  lemma NullVariationTypeKept()
    ensures CreateVariation(JObject(map["imageUrl" := JString("u"), "variationType" := JNull]), 0).body.variationType == JNull
  {
  }
}
