/**
 * The FastAPI application (server.py, and its twin backend/main.py, whose
 * handlers are the same): five endpoints over a text service and a
 * search service. Each handler is a function of the services it awaits,
 * so the same definitions cover any wiring; `SimpleText` and
 * `SimpleSearch` are the wiring both files actually use. A service's
 * `Err` is an exception it raised; the handler turns it into a 500 whose
 * `detail` is a fixed prefix followed by the message.
 */
module FastApiGateway {
  import opened Common
  import opened Json
  import opened Payloads
  import SimpleGemini
  import SimpleYouTube

  type TextService = (string, Option<string>) -> Result<TextResponse>
  type SearchService = (string, int) -> Result<seq<Video>>

  /** The request bodies after validation; `maxResults` defaults to 10 when omitted. */
  datatype TextRequest = TextRequest(text: string, context: Option<string>)
  datatype YouTubeRequest = YouTubeRequest(query: string, maxResults: Option<int>)

  const ApiName := "AI Integration Template API"

  function FailureBody(prefix: string, msg: string): Json {
    MessageBody("detail", prefix + msg)
  }

  /** `GET /`: the API name, version and endpoint paths. */
  function Root(): (h: Http)
    ensures h.status == 200 && h.body.JObj? && h.body.fields.Keys == {"message", "version", "endpoints"}
  {
    Http(200, JObj(map[
      "message" := JStr(ApiName), "version" := JStr("1.0.0"),
      "endpoints" := JObj(map[
        "text_processing" := JStr("/api/process-text"),
        "youtube_recommendations" := JStr("/api/youtube-recommendations"),
        "health" := JStr("/health")])]))
  }

  /** `GET /health` always reports healthy. */
  function HealthCheck(): (h: Http)
    ensures h.status == 200
    ensures h.body == JObj(map["status" := JStr("healthy"), "service" := JStr(ApiName)])
  {
    Http(200, JObj(map["status" := JStr("healthy"), "service" := JStr(ApiName)]))
  }

  /** `GET /api/service-info`: the text service's own report and whether YOUTUBE_API_KEY is truthy. */
  function ServiceInfo(aiInfo: Json, youtubeKey: Option<string>): (h: Http)
    ensures h.status == 200 && h.body.JObj? && h.body.fields.Keys == {"ai_service", "youtube_service"}
    ensures h.body.fields["ai_service"] == aiInfo
    ensures h.body.fields["youtube_service"] == JObj(map["configured" := JBool(Truthy(youtubeKey))])
  {
    Http(200, JObj(map["ai_service" := aiInfo,
                       "youtube_service" := JObj(map["configured" := JBool(Truthy(youtubeKey))])]))
  }

  /** `POST /api/process-text`. */
  function ProcessText(text: TextService, req: TextRequest): (r: Run)
    ensures r.calls == [TextCall(req.text, req.context)]
    ensures text(req.text, req.context).Ok? ==>
      r.response == Http(200, TextResponseJson(text(req.text, req.context).value))
    ensures text(req.text, req.context).Err? ==>
      r.response == Http(500, FailureBody("Text processing failed: ", text(req.text, req.context).msg))
  {
    var t := text(req.text, req.context);
    var calls := [TextCall(req.text, req.context)];
    if t.Ok? then Run(Http(200, TextResponseJson(t.value)), calls)
    else Run(Http(500, FailureBody("Text processing failed: ", t.msg)), calls)
  }

  /** `max_results or 10`: an omitted or zero count becomes 10; any other value is kept. */
  function EffectiveCount(maxResults: Option<int>): (n: int)
    ensures n != 0
    ensures maxResults.Some? && maxResults.value != 0 ==> n == maxResults.value
    ensures maxResults.None? || maxResults.value == 0 ==> n == 10
  {
    if maxResults.Some? && maxResults.value != 0 then maxResults.value else 10
  }

  /** `POST /api/youtube-recommendations`. */
  function YouTubeRecommendations(search: SearchService, req: YouTubeRequest): (r: Run)
    ensures r.calls == [SearchCall(req.query, EffectiveCount(req.maxResults))]
    ensures search(req.query, EffectiveCount(req.maxResults)).Ok? ==>
      r.response == Http(200, VideosJson(search(req.query, EffectiveCount(req.maxResults)).value))
    ensures search(req.query, EffectiveCount(req.maxResults)).Err? ==>
      r.response == Http(500, FailureBody("YouTube recommendations failed: ",
                                          search(req.query, EffectiveCount(req.maxResults)).msg))
  {
    var n := EffectiveCount(req.maxResults);
    var s := search(req.query, n);
    if s.Ok? then Run(Http(200, VideosJson(s.value)), [SearchCall(req.query, n)])
    else Run(Http(500, FailureBody("YouTube recommendations failed: ", s.msg)), [SearchCall(req.query, n)])
  }

  function CombinedBody(t: TextResponse, vs: seq<Video>): Json {
    JObj(map["text_response" := TextResponseJson(t), "youtube_recommendations" := VideosJson(vs)])
  }

  /**
   * `POST /api/combined-response`: the text first, then a search for the
   * same text with five results; either failure fails the whole request,
   * and a failed text leg means the search is never started.
   */
  function CombinedResponse(text: TextService, search: SearchService, req: TextRequest): (r: Run)
    ensures r.calls == [TextCall(req.text, req.context)]
      + (if text(req.text, req.context).Ok? then [SearchCall(req.text, 5)] else [])
    ensures r.response.status == 200 <==> text(req.text, req.context).Ok? && search(req.text, 5).Ok?
    ensures r.response.status == 200 ==>
      r.response.body == CombinedBody(text(req.text, req.context).value, search(req.text, 5).value)
    ensures r.response.status != 200 ==> (r.response.status == 500 &&
      r.response.body == FailureBody("Combined response failed: ",
        if text(req.text, req.context).Err? then text(req.text, req.context).msg else search(req.text, 5).msg))
  {
    var t := text(req.text, req.context);
    if t.Err? then
      Run(Http(500, FailureBody("Combined response failed: ", t.msg)), [TextCall(req.text, req.context)])
    else
      var calls := [TextCall(req.text, req.context), SearchCall(req.text, 5)];
      var s := search(req.text, 5);
      if s.Err? then Run(Http(500, FailureBody("Combined response failed: ", s.msg)), calls)
      else Run(Http(200, CombinedBody(t.value, s.value)), calls)
  }

  // ---------------------------------------------------------------------------
  // The wiring of server.py and backend/main.py: the canned tutor and the curated catalogue.

  /** The canned tutor as the text service: it never raises. */
  function SimpleText(geminiKey: Option<string>, now: string): (ts: TextService)
    ensures forall t, c :: ts(t, c).Ok?
  {
    (t: string, c: Option<string>) => Ok(SimpleGemini.ProcessText(geminiKey, t, c, now))
  }

  function SimpleSearch(youtubeKey: Option<string>): SearchService {
    (q: string, n: int) => Ok(SimpleYouTube.GetRecommendations(youtubeKey, q, n))
  }

  /**
   * With a text service that never raises, as `SimpleText` is, and the
   * curated catalogue, the combined endpoint never fails and returns at
   * most three videos.
   */
  lemma WiredCombinedSucceeds(text: TextService, youtubeKey: Option<string>, req: TextRequest)
    requires forall t, c :: text(t, c).Ok?
    ensures var r := CombinedResponse(text, SimpleSearch(youtubeKey), req);
      r.response.status == 200 && |r.calls| == 2
      && r.response.body.JObj? && "youtube_recommendations" in r.response.body.fields
      && r.response.body.fields["youtube_recommendations"].JArr?
      && |r.response.body.fields["youtube_recommendations"].items| <= 3
  {
    var vs := SimpleYouTube.GetRecommendations(youtubeKey, req.text, 5);
    SimpleYouTube.CatalogueSizes(SimpleYouTube.SelectCategory(req.text), req.text);
    assert |vs| <= 3;
    assert text(req.text, req.context).Ok?;
    assert SimpleSearch(youtubeKey)(req.text, 5) == Ok(vs);
  }

  /** As wired, process-text always answers 200 with a reply quoting the text. */
  lemma WiredProcessTextSucceeds(geminiKey: Option<string>, now: string, req: TextRequest)
    ensures var r := ProcessText(SimpleText(geminiKey, now), req);
      r.response.status == 200 && r.response.body.fields["timestamp"] == JStr(now)
      && r.response.body.fields["response"].JStr?
      && ContainsSub(r.response.body.fields["response"].s, req.text)
  {
  }

  /** Asking for no results, or for zero, gets the whole curated list (it never exceeds 10). */
  lemma ZeroCountMeansWholeList(youtubeKey: Option<string>, query: string, zero: Option<int>)
    requires zero.None? || zero == Some(0)
    ensures var r := YouTubeRecommendations(SimpleSearch(youtubeKey), YouTubeRequest(query, zero));
      r.response == Http(200, VideosJson(SimpleYouTube.Catalogue(SimpleYouTube.SelectCategory(query), query)))
  {
    var cat := SimpleYouTube.Catalogue(SimpleYouTube.SelectCategory(query), query);
    SimpleYouTube.CatalogueSizes(SimpleYouTube.SelectCategory(query), query);
    assert SimpleYouTube.MockRecommendations(query, 10) == cat;
  }

  /** A negative count is not rejected: Python slicing drops that many videos from the end. */
  lemma NegativeCountDropsFromEnd(youtubeKey: Option<string>, query: string, n: int)
    requires n < 0
    ensures var r := YouTubeRecommendations(SimpleSearch(youtubeKey), YouTubeRequest(query, Some(n)));
      var cat := SimpleYouTube.Catalogue(SimpleYouTube.SelectCategory(query), query);
      r.response.status == 200 && |r.response.body.items| == Max(0, |cat| + n)
  {
  }
}
