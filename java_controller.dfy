/**
 * The Spring controller (examples/JavaBackendController.java): the same
 * endpoints as the FastAPI app, with request validation (400 on a null or
 * blank text/query), Java null semantics (a null `maxResults` becomes 10,
 * zero stays zero; a null context shows as "None", an empty one as
 * itself) and a combined handler that calls its sibling handlers and
 * returns the first non-2xx answer unchanged. The two upstream helpers are
 * parameters (`Err`: they threw); `CallOpenAI` and `CallYouTubeApi` are
 * the placeholder bodies the controller ships with.
 */
module JavaController {
  import opened Common
  import opened Json
  import opened Payloads
  import opened MockVideos
  import AiService
  import FastApiGateway

  /** `openai.api.key` and `youtube.api.key`; None when unset. */
  datatype Config = Config(openaiKey: Option<string>, youtubeKey: Option<string>)

  datatype TextRequest = TextRequest(text: Option<string>, context: Option<string>)
  datatype YouTubeRequest = YouTubeRequest(query: Option<string>, maxResults: Option<int>)

  type OpenAiCall = (string, Option<string>) -> Result<string>
  type YouTubeCall = (string, int) -> Result<seq<Video>>

  /** `s == null || s.trim().isEmpty()`. */
  predicate IsBlank(s: Option<string>) {
    s.None? || Trim(s.value, JavaSpace) == ""
  }

  function ErrorBody(msg: string): Json {
    MessageBody("error", msg)
  }

  /** The placeholder OpenAI call: the first 50 characters of the text, then "...". */
  function CallOpenAI(text: string, context: Option<string>): (r: Result<string>)
    ensures r.Ok? && r.value == "AI response to: " + Take(text, 50) + "..."
  {
    Ok("AI response to: " + Take(text, 50) + "...")
  }

  /** The placeholder YouTube call: the numbered placeholders. */
  function CallYouTubeApi(query: string, maxResults: int): (r: Result<seq<Video>>)
    ensures r == Ok(MockList(query, maxResults))
  {
    Ok(MockList(query, maxResults))
  }

  /** `generateMockRecommendations`: placeholders 1..maxResults; none for a count below 1. */
  method GenerateMockRecommendations(query: string, maxResults: int) returns (recommendations: seq<Video>)
    ensures recommendations == MockList(query, maxResults)
  {
    recommendations := [];
    var i := 1;
    while i <= maxResults
      invariant 1 <= i <= Max(maxResults, 0) + 1
      invariant recommendations == MockList(query, i - 1)
    {
      recommendations := recommendations + [MockEntry(query, i)];
      i := i + 1;
    }
  }

  /** The canned reply: at most 100 characters echoed, the context or "None" when it is null. */
  function MockReplyText(text: string, context: Option<string>): (s: string)
    ensures ContainsSub(s, Take(text, 100)) && |Take(text, 100)| == Min(100, |text|)
    ensures context.Some? ==> EndsWith(s, AiService.OpenAiMockTail + context.value)
    ensures context.None? ==> EndsWith(s, AiService.OpenAiMockTail + "None")
  {
    AiService.OpenAiMockText(Take(text, 100), context.GetOr("None"))
  }

  /** `processText`. */
  function ProcessText(cfg: Config, openai: OpenAiCall, req: TextRequest, now: string): (h: Http)
    ensures h.status == 400 <==> IsBlank(req.text)
    ensures IsBlank(req.text) ==> h.body == ErrorBody("Text is required")
    ensures !IsBlank(req.text) && !IsBlank(cfg.openaiKey) ==>
      (openai(req.text.value, req.context).Ok? <==> h.status == 200)
    ensures !IsBlank(req.text) && IsBlank(cfg.openaiKey) ==>
      h == Http(200, TextResponseJson(TextResponse(MockReplyText(req.text.value, req.context), now)))
    ensures !IsBlank(req.text) && !IsBlank(cfg.openaiKey) && openai(req.text.value, req.context).Ok? ==>
      h == Http(200, TextResponseJson(TextResponse(openai(req.text.value, req.context).value, now)))
    ensures h.status == 200 ==> h.body.JObj? && h.body.fields.Keys == {"response", "timestamp"}
    ensures h.status == 500 ==> (!IsBlank(cfg.openaiKey) && openai(req.text.value, req.context).Err?
      && h.body == ErrorBody("Text processing failed: " + openai(req.text.value, req.context).msg))
    ensures h.status in {200, 400, 500}
  {
    if IsBlank(req.text) then Http(400, ErrorBody("Text is required"))
    else
      var text := req.text.value;
      var reply := if !IsBlank(cfg.openaiKey) then openai(text, req.context)
                   else Ok(MockReplyText(text, req.context));
      if reply.Err? then Http(500, ErrorBody("Text processing failed: " + reply.msg))
      else Http(200, TextResponseJson(TextResponse(reply.value, now)))
  }

  /** `request.getMaxResults() != null ? request.getMaxResults() : 10`. */
  function MaxResultsOrDefault(maxResults: Option<int>): (n: int)
    ensures maxResults.Some? ==> n == maxResults.value
    ensures maxResults.None? ==> n == 10
  {
    maxResults.GetOr(10)
  }

  /** `getYouTubeRecommendations`. */
  function YouTubeRecommendations(cfg: Config, youtube: YouTubeCall, req: YouTubeRequest): (h: Http)
    ensures h.status == 400 <==> IsBlank(req.query)
    ensures IsBlank(req.query) ==> h.body == ErrorBody("Query is required")
    ensures !IsBlank(req.query) && IsBlank(cfg.youtubeKey) ==>
      h == Http(200, VideosJson(MockList(req.query.value, MaxResultsOrDefault(req.maxResults))))
    ensures !IsBlank(req.query) && !IsBlank(cfg.youtubeKey) ==>
      var found := youtube(req.query.value, MaxResultsOrDefault(req.maxResults));
      (found.Ok? ==> h == Http(200, VideosJson(found.value)))
      && (found.Err? ==> h == Http(500, ErrorBody("YouTube recommendations failed: " + found.msg)))
    ensures h.status == 500 ==> !IsBlank(cfg.youtubeKey)
    ensures h.status in {200, 400, 500}
  {
    if IsBlank(req.query) then Http(400, ErrorBody("Query is required"))
    else
      var n := MaxResultsOrDefault(req.maxResults);
      var found := if !IsBlank(cfg.youtubeKey) then youtube(req.query.value, n)
                   else Ok(MockList(req.query.value, n));
      if found.Err? then Http(500, ErrorBody("YouTube recommendations failed: " + found.msg))
      else Http(200, VideosJson(found.value))
  }

  /**
   * `getCombinedResponse`: validate, run the text handler and stop at its
   * non-2xx answer, then the search handler with five results and stop at
   * its non-2xx answer, else combine both bodies.
   */
  function CombinedResponse(cfg: Config, openai: OpenAiCall, youtube: YouTubeCall,
                            req: TextRequest, now: string): (r: Run)
    ensures IsBlank(req.text) ==> r == Run(Http(400, ErrorBody("Text is required")), [])
    ensures !IsBlank(req.text) ==>
      var t := ProcessText(cfg, openai, req, now);
      var y := YouTubeRecommendations(cfg, youtube, YouTubeRequest(req.text, Some(5)));
      r.calls == [TextCall(req.text.value, req.context)]
        + (if IsSuccess(t) then [SearchCall(req.text.value, 5)] else [])
      && (!IsSuccess(t) ==> r.response == t)
      && (IsSuccess(t) && !IsSuccess(y) ==> r.response == y)
      && (IsSuccess(t) && IsSuccess(y) ==> r.response == Http(200, JObj(map[
           "text_response" := t.body, "youtube_recommendations" := y.body])))
  {
    if IsBlank(req.text) then Run(Http(400, ErrorBody("Text is required")), [])
    else
      var t := ProcessText(cfg, openai, req, now);
      if !IsSuccess(t) then Run(t, [TextCall(req.text.value, req.context)])
      else
        var calls := [TextCall(req.text.value, req.context), SearchCall(req.text.value, 5)];
        var y := YouTubeRecommendations(cfg, youtube, YouTubeRequest(req.text, Some(5)));
        if !IsSuccess(y) then Run(y, calls)
        else Run(Http(200, JObj(map["text_response" := t.body, "youtube_recommendations" := y.body])), calls)
  }

  /** `GET /health`. */
  function Health(): (h: Http)
    ensures h.status == 200 && h.body.JObj? && h.body.fields.Keys == {"status", "service"}
    ensures h.body.fields["status"] == JStr("healthy")
  {
    Http(200, JObj(map["status" := JStr("healthy"), "service" := JStr("AI Integration Template API")]))
  }

  /** `GET /`: the API name, version and endpoint paths. */
  function Root(): (h: Http)
    ensures h.status == 200 && h.body.JObj? && h.body.fields.Keys == {"message", "version", "endpoints"}
  {
    Http(200, JObj(map[
      "message" := JStr("AI Integration Template API"), "version" := JStr("1.0.0"),
      "endpoints" := JObj(map[
        "text_processing" := JStr("/api/process-text"),
        "youtube_recommendations" := JStr("/api/youtube-recommendations"),
        "health" := JStr("/health")])]))
  }

  /** The controller's fixed endpoints answer exactly as the FastAPI app's do. */
  lemma FixedEndpointsMatchFastApi()
    ensures Health() == FastApiGateway.HealthCheck()
    ensures Root() == FastApiGateway.Root()
  {
  }

  /** With the shipped placeholder helpers no endpoint answers 500. */
  lemma PlaceholdersNeverFail(cfg: Config, textReq: TextRequest, searchReq: YouTubeRequest, now: string)
    ensures ProcessText(cfg, CallOpenAI, textReq, now).status in {200, 400}
    ensures YouTubeRecommendations(cfg, CallYouTubeApi, searchReq).status in {200, 400}
    ensures !IsBlank(searchReq.query) ==>
      YouTubeRecommendations(cfg, CallYouTubeApi, searchReq)
        == Http(200, VideosJson(MockList(searchReq.query.value, MaxResultsOrDefault(searchReq.maxResults))))
    ensures CombinedResponse(cfg, CallOpenAI, CallYouTubeApi, textReq, now).response.status in {200, 400}
  {
  }

  /** A text that passed validation is never rejected by the inner search: the combined answer is 200 or 500. */
  lemma CombinedAfterValidation(cfg: Config, openai: OpenAiCall, youtube: YouTubeCall,
                                req: TextRequest, now: string)
    requires !IsBlank(req.text)
    ensures CombinedResponse(cfg, openai, youtube, req, now).response.status in {200, 500}
  {
  }

  /** Java keeps an explicit zero: no videos, unlike the Python `or 10`. */
  lemma ZeroMeansNoVideos(cfg: Config, query: string)
    requires IsBlank(cfg.youtubeKey) && !IsBlank(Some(query))
    ensures YouTubeRecommendations(cfg, CallYouTubeApi, YouTubeRequest(Some(query), Some(0)))
         == Http(200, JArr([]))
  {
  }
}
