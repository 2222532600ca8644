/**
 * The records the services hand back to the web layer: a text response
 * (`{response, timestamp}`) and a video recommendation, with their JSON
 * forms, plus the trace of upstream calls a handler makes.
 */
module Payloads {
  import opened Common
  import opened Json

  /** The result of every text-processing service: the reply and when it was made. */
  datatype TextResponse = TextResponse(response: string, timestamp: string)

  function TextResponseJson(t: TextResponse): (j: Json)
    ensures j.JObj? && j.fields.Keys == {"response", "timestamp"}
    ensures j.fields["response"] == JStr(t.response) && j.fields["timestamp"] == JStr(t.timestamp)
  {
    JObj(map["response" := JStr(t.response), "timestamp" := JStr(t.timestamp)])
  }

  /**
   * One recommendation. `title`, `thumbnailUrl` and `channelName` may be
   * None (serialised as null) when the live API omits them; `viewCount`
   * and `duration` exist only in the curated catalogue (None: the key is
   * not present at all).
   */
  datatype Video = Video(
    title: Option<string>,
    videoId: string,
    thumbnailUrl: Option<string>,
    channelName: Option<string>,
    url: string,
    viewCount: Option<nat>,
    duration: Option<string>)

  const VideoKeys: set<string> := {"title", "video_id", "thumbnail_url", "channel_name", "url"}

  function VideoJson(v: Video): (j: Json)
    ensures j.JObj?
    ensures VideoKeys <= j.fields.Keys
    ensures "view_count" in j.fields <==> v.viewCount.Some?
    ensures "duration" in j.fields <==> v.duration.Some?
    ensures j.fields["video_id"] == JStr(v.videoId) && j.fields["url"] == JStr(v.url)
  {
    var core := map[
      "title" := OptStr(v.title), "video_id" := JStr(v.videoId),
      "thumbnail_url" := OptStr(v.thumbnailUrl), "channel_name" := OptStr(v.channelName),
      "url" := JStr(v.url)];
    var withViews := if v.viewCount.Some? then core["view_count" := JNum(v.viewCount.value)] else core;
    JObj(if v.duration.Some? then withViews["duration" := JStr(v.duration.value)] else withViews)
  }

  function VideosJson(vs: seq<Video>): (j: Json)
    ensures j.JArr? && |j.items| == |vs|
    ensures forall i :: 0 <= i < |vs| ==> j.items[i] == VideoJson(vs[i])
  {
    JArr(seq(|vs|, i requires 0 <= i < |vs| => VideoJson(vs[i])))
  }

  /** Every video's url is `prefix` followed by its id. */
  predicate UrlsFromIds(vs: seq<Video>, prefix: string) {
    forall i :: 0 <= i < |vs| ==> vs[i].url == prefix + vs[i].videoId
  }

  predicate DistinctIds(vs: seq<Video>) {
    forall i, j :: 0 <= i < j < |vs| ==> vs[i].videoId != vs[j].videoId
  }

  /** An upstream call a combined handler makes, in the order it makes them. */
  datatype Call =
    | TextCall(text: string, context: Option<string>)
    | SearchCall(query: string, maxResults: int)

  /** A handler's response together with the calls it made to reach it. */
  datatype Run = Run(response: Http, calls: seq<Call>)
}
