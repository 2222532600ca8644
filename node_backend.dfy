/**
 * The Express backend (examples/nodejs-backend.js). Validation uses
 * JavaScript truthiness; an omitted `max_results` becomes 10 (an explicit
 * value is kept); the live YouTube path has no fallback, so an HTTP error
 * is a 500; failure bodies carry no message; and the combined endpoint
 * calls the other two endpoints and embeds whatever bodies they return,
 * without looking at their status. Bodies are JSON as `res.json` writes
 * it: a field whose value is undefined is left out. The OpenAI client and
 * axios are the `complete` and `search` parameters (`Err`: they threw).
 */
module NodeBackend {
  import opened Common
  import opened Json
  import opened Payloads
  import opened MockVideos
  import AiService
  import YouTubeLive
  import FastApiGateway

  /** The environment: OPENAI_API_KEY, YOUTUBE_API_KEY, AI_MODEL and MAX_TOKENS. */
  datatype Config = Config(openaiKey: Option<string>, youtubeKey: Option<string>,
                           aiModel: Option<string>, maxTokens: int)

  /** Request bodies; None is a field the client left out. */
  datatype TextBody = TextBody(text: Option<string>, context: Option<string>)
  datatype SearchBody = SearchBody(query: Option<string>, maxResults: Option<int>)

  datatype CompletionRequest = CompletionRequest(model: string, messages: seq<AiService.Message>, maxTokens: int)

  /** The first choice's message content; None when the completion lacks it. */
  type Completer = CompletionRequest -> Result<Option<string>>
  /** The `items` of the search answer; None when the answer has none. */
  type Searcher = YouTubeLive.SearchParams -> Result<Option<seq<YouTubeLive.Item>>>

  /** `process.env.AI_MODEL || 'gpt-3.5-turbo'`: an empty setting also falls back. */
  function ModelName(cfg: Config): (m: string)
    ensures Truthy(cfg.aiModel) ==> m == cfg.aiModel.value
    ensures !Truthy(cfg.aiModel) ==> m == AiService.DefaultModel
  {
    if Truthy(cfg.aiModel) then cfg.aiModel.value else AiService.DefaultModel
  }

  /**
   * The completion request of a keyed call: the configured model, a system
   * message exactly when the context is truthy, then the user's text, and
   * MAX_TOKENS.
   */
  function LiveRequest(cfg: Config, text: string, context: Option<string>): (q: CompletionRequest)
    ensures q.model == ModelName(cfg) && q.maxTokens == cfg.maxTokens
    ensures Truthy(context) ==> q.messages == [AiService.Message("system", context.value), AiService.Message("user", text)]
    ensures !Truthy(context) ==> q.messages == [AiService.Message("user", text)]
  {
    CompletionRequest(ModelName(cfg), AiService.Messages(text, context), cfg.maxTokens)
  }

  /** The completer is consulted only with `LiveRequest`: completers that agree there give the same answer. */
  lemma OnlyLiveRequest(cfg: Config, c1: Completer, c2: Completer, body: TextBody, now: string)
    requires Truthy(body.text) ==>
      c1(LiveRequest(cfg, body.text.value, body.context)) == c2(LiveRequest(cfg, body.text.value, body.context))
    ensures ProcessText(cfg, c1, body, now) == ProcessText(cfg, c2, body, now)
  {
  }

  /** `POST /api/process-text`. */
  function ProcessText(cfg: Config, complete: Completer, body: TextBody, now: string): (h: Http)
    ensures h.status == 400 <==> !Truthy(body.text)
    ensures !Truthy(body.text) ==> h.body == MessageBody("error", "Text is required")
    ensures Truthy(body.text) && !Truthy(cfg.openaiKey) ==>
      h == Http(200, TextResponseJson(TextResponse(
        AiService.OpenAiMockText(Take(body.text.value, 100), AiService.ContextShown(body.context)), now)))
    ensures Truthy(body.text) && Truthy(cfg.openaiKey) ==>
      var reply := complete(LiveRequest(cfg, body.text.value, body.context));
      (h.status == 200 <==> reply.Ok? && reply.value.Some?)
      && (h.status == 200 ==> h == Http(200, TextResponseJson(TextResponse(Trim(reply.value.value, JsSpace), now))))
    ensures h.status == 500 ==> Truthy(cfg.openaiKey) && h.body == MessageBody("error", "Text processing failed")
    ensures h.status in {200, 400, 500}
  {
    if !Truthy(body.text) then Http(400, MessageBody("error", "Text is required"))
    else
      var text := body.text.value;
      if Truthy(cfg.openaiKey) then
        var reply := complete(LiveRequest(cfg, text, body.context));
        if reply.Err? || reply.value.None? then Http(500, MessageBody("error", "Text processing failed"))
        else Http(200, TextResponseJson(TextResponse(Trim(reply.value.value, JsSpace), now)))
      else
        Http(200, TextResponseJson(TextResponse(
          AiService.OpenAiMockText(Take(text, 100), AiService.ContextShown(body.context)), now)))
  }

  /** The largest array length JavaScript allows; a longer `Array.from` throws RangeError. */
  const MaxArrayLength := 4294967295

  /** Field `k` set to `v`, or left out when `v` is undefined. */
  function PutDefined(m: map<string, Json>, k: string, v: Option<string>): map<string, Json> {
    if v.Some? then m[k := JStr(v.value)] else m
  }

  /**
   * One live item as `res.json` writes it; a missing snippet or id is a
   * TypeError, and a field whose value is undefined is left out.
   */
  function LiveItemJson(item: YouTubeLive.Item): (r: Result<Json>)
    ensures r.Ok? <==> item.snippet.Some? && item.id.Some?
    ensures r.Ok? ==> (r.value.JObj?
      && r.value.fields.Keys <= {"title", "video_id", "thumbnail_url", "channel_name", "url"}
      && "url" in r.value.fields
      && r.value.fields["url"] == JStr(WatchUrl + item.id.value.videoId.GetOr("undefined")))
    ensures r.Ok? ==> var sn := item.snippet.value; var t := YouTubeLive.ThumbnailOf(sn);
      ("thumbnail_url" in r.value.fields <==> t.Some?)
      && (t.Some? ==> r.value.fields["thumbnail_url"] == JStr(t.value))
      && ("title" in r.value.fields <==> sn.title.Some?)
      && (sn.title.Some? ==> r.value.fields["title"] == JStr(sn.title.value))
      && ("channel_name" in r.value.fields <==> sn.channelTitle.Some?)
      && (sn.channelTitle.Some? ==> r.value.fields["channel_name"] == JStr(sn.channelTitle.value))
      && ("video_id" in r.value.fields <==> item.id.value.videoId.Some?)
      && (item.id.value.videoId.Some? ==> r.value.fields["video_id"] == JStr(item.id.value.videoId.value))
  {
    if item.snippet.None? || item.id.None? then Err("TypeError")
    else
      var sn := item.snippet.value;
      var vid := item.id.value.videoId;
      // `thumbnails?.medium?.url || thumbnails?.default?.url` selects as the Python client does.
      var m := PutDefined(PutDefined(PutDefined(PutDefined(map[], "title", sn.title), "video_id", vid),
                                     "thumbnail_url", YouTubeLive.ThumbnailOf(sn)), "channel_name", sn.channelTitle);
      Ok(JObj(m["url" := JStr(WatchUrl + vid.GetOr("undefined"))]))
  }

  /** `items.map(...)`: every item mapped, or the first TypeError. */
  function LiveItemsJson(items: seq<YouTubeLive.Item>): (r: Result<seq<Json>>)
    ensures r.Ok? <==> forall i :: 0 <= i < |items| ==> LiveItemJson(items[i]).Ok?
    ensures r.Ok? ==> |r.value| == |items| && forall i :: 0 <= i < |items| ==> r.value[i] == LiveItemJson(items[i]).value
  {
    if |items| == 0 then Ok([])
    else
      var head := LiveItemJson(items[0]);
      var rest := LiveItemsJson(items[1..]);
      if head.Err? then Err(head.msg)
      else if rest.Err? then
        assert forall i :: 1 <= i < |items| ==> items[1..][i - 1] == items[i];
        Err(rest.msg)
      else
        assert forall i :: 1 <= i < |items| ==> items[1..][i - 1] == items[i];
        Ok([head.value] + rest.value)
  }

  /** `const { max_results = 10 } = req.body`: the default applies only to an omitted field. */
  function MaxResultsOrDefault(maxResults: Option<int>): (n: int)
    ensures maxResults.None? ==> n == 10
    ensures maxResults.Some? ==> n == maxResults.value
  {
    maxResults.GetOr(10)
  }

  /** `POST /api/youtube-recommendations`. */
  function YouTubeRecommendations(cfg: Config, search: Searcher, body: SearchBody): (h: Http)
    ensures h.status == 400 <==> !Truthy(body.query)
    ensures !Truthy(body.query) ==> h.body == MessageBody("error", "Query is required")
    ensures Truthy(body.query) && !Truthy(cfg.youtubeKey) && MaxResultsOrDefault(body.maxResults) <= MaxArrayLength ==>
      h == Http(200, VideosJson(MockList(body.query.value, MaxResultsOrDefault(body.maxResults))))
    ensures Truthy(body.query) && !Truthy(cfg.youtubeKey) && MaxResultsOrDefault(body.maxResults) > MaxArrayLength ==>
      h.status == 500
    ensures Truthy(body.query) && Truthy(cfg.youtubeKey) ==>
      var found := search(YouTubeLive.ParamsFor(body.query.value, MaxResultsOrDefault(body.maxResults), cfg.youtubeKey.value));
      (h.status == 200 <==> found.Ok? && found.value.Some? && LiveItemsJson(found.value.value).Ok?)
      && (h.status == 200 ==> h.body == JArr(LiveItemsJson(found.value.value).value))
    ensures h.status == 500 ==> h.body == MessageBody("error", "YouTube recommendations failed")
    ensures h.status in {200, 400, 500}
  {
    var failed := Http(500, MessageBody("error", "YouTube recommendations failed"));
    if !Truthy(body.query) then Http(400, MessageBody("error", "Query is required"))
    else
      var query := body.query.value;
      var n := MaxResultsOrDefault(body.maxResults);
      if Truthy(cfg.youtubeKey) then
        var found := search(YouTubeLive.ParamsFor(query, n, cfg.youtubeKey.value));
        if found.Err? || found.value.None? then failed
        else
          var mapped := LiveItemsJson(found.value.value);
          if mapped.Err? then failed else Http(200, JArr(mapped.value))
      else if n > MaxArrayLength then failed
      else Http(200, VideosJson(MockList(query, n)))
  }

  /**
   * `POST /api/combined-response`: after validation both endpoints are
   * called, in order, and their bodies are embedded whatever their status.
   */
  function CombinedResponse(cfg: Config, complete: Completer, search: Searcher,
                            body: TextBody, now: string): (r: Run)
    ensures !Truthy(body.text) ==> r == Run(Http(400, MessageBody("error", "Text is required")), [])
    ensures Truthy(body.text) ==>
      r.calls == [TextCall(body.text.value, body.context), SearchCall(body.text.value, 5)]
      && r.response == Http(200, JObj(map[
        "text_response" := ProcessText(cfg, complete, body, now).body,
        "youtube_recommendations" := YouTubeRecommendations(cfg, search, SearchBody(body.text, Some(5))).body]))
  {
    if !Truthy(body.text) then Run(Http(400, MessageBody("error", "Text is required")), [])
    else
      var t := ProcessText(cfg, complete, body, now);
      var y := YouTubeRecommendations(cfg, search, SearchBody(body.text, Some(5)));
      Run(Http(200, JObj(map["text_response" := t.body, "youtube_recommendations" := y.body])),
          [TextCall(body.text.value, body.context), SearchCall(body.text.value, 5)])
  }

  /** A failing text leg does not fail the combined answer: its error body is embedded. */
  lemma CombinedHidesLegFailure(cfg: Config, complete: Completer, search: Searcher, body: TextBody, now: string)
    requires Truthy(body.text) && Truthy(cfg.openaiKey)
    requires complete(LiveRequest(cfg, body.text.value, body.context)).Err?
    ensures CombinedResponse(cfg, complete, search, body, now).response.status == 200
    ensures CombinedResponse(cfg, complete, search, body, now).response.body.fields["text_response"]
         == MessageBody("error", "Text processing failed")
  {
  }

  /** A negative count is read as length zero: no placeholders, not an error. */
  lemma NegativeCountGivesNone(cfg: Config, search: Searcher, query: string, n: int)
    requires query != "" && !Truthy(cfg.youtubeKey) && n < 0
    ensures YouTubeRecommendations(cfg, search, SearchBody(Some(query), Some(n))) == Http(200, JArr([]))
  {
  }

  /** A live item without a videoId still gets a link, to `watch?v=undefined`. */
  lemma MissingVideoIdLinksUndefined(item: YouTubeLive.Item)
    requires item.snippet.Some? && item.id.Some? && item.id.value.videoId.None?
    ensures LiveItemJson(item).Ok?
    ensures LiveItemJson(item).value.fields["url"] == JStr(WatchUrl + "undefined")
    ensures "video_id" !in LiveItemJson(item).value.fields
  {
  }

  /** `GET /health`. */
  function Health(): (h: Http)
    ensures h.status == 200 && h.body.JObj? && h.body.fields.Keys == {"status", "service"}
    ensures h.body.fields["status"] == JStr("healthy")
  {
    Http(200, JObj(map["status" := JStr("healthy"), "service" := JStr("AI Integration Template API")]))
  }

  /** `GET /`: the API name, version and endpoint paths. */
  function Root(): (h: Http)
    ensures h.status == 200 && h.body.JObj? && h.body.fields.Keys == {"message", "version", "endpoints"}
  {
    Http(200, JObj(map[
      "message" := JStr("AI Integration Template API"), "version" := JStr("1.0.0"),
      "endpoints" := JObj(map[
        "text_processing" := JStr("/api/process-text"),
        "youtube_recommendations" := JStr("/api/youtube-recommendations"),
        "health" := JStr("/health")])]))
  }

  /** The Express app's fixed endpoints answer exactly as the FastAPI app's do. */
  lemma FixedEndpointsMatchFastApi()
    ensures Health() == FastApiGateway.HealthCheck()
    ensures Root() == FastApiGateway.Root()
  {
  }
}
