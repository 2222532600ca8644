/**
 * The live YouTube search client (backend/services/youtube_service.py):
 * with a key it queries the YouTube Data API v3 search endpoint and maps
 * each item to a recommendation; without a key, or when the API answers
 * with a non-200 status, it falls back to the numbered placeholders.
 * The HTTP GET is the `fetch` parameter; its `Err` is an exception raised
 * by the client (timeout, connection failure), which propagates.
 */
module YouTubeLive {
  import opened Common
  import opened Payloads
  import opened MockVideos

  const SearchEndpoint := "https://www.googleapis.com/youtube/v3/search"

  /** The query parameters of the search request. */
  datatype SearchParams = SearchParams(
    part: string, q: string, searchType: string, maxResults: int, key: string, safeSearch: string)

  /** The request always asks for videos, with moderate safe search, and carries the query, count and key. */
  function ParamsFor(query: string, maxResults: int, key: string): (p: SearchParams)
    ensures p.searchType == "video" && p.safeSearch == "moderate" && p.part == "snippet"
    ensures p.q == query && p.maxResults == maxResults && p.key == key
  {
    SearchParams("snippet", query, "video", maxResults, key, "moderate")
  }

  // Shapes of the API's JSON answer; None marks a key that is absent.
  datatype Thumb = Thumb(url: Option<string>)
  datatype Thumbnails = Thumbnails(medium: Option<Thumb>, defaultSize: Option<Thumb>)
  datatype Snippet = Snippet(title: Option<string>, channelTitle: Option<string>, thumbnails: Option<Thumbnails>)
  datatype ItemId = ItemId(videoId: Option<string>)
  datatype Item = Item(id: Option<ItemId>, snippet: Option<Snippet>)
  /** The answer's `items`: absent, JSON `null`, or a list. */
  datatype ItemsField = NoItems | NullItems | ItemList(list: seq<Item>)
  datatype SearchBody = SearchBody(items: ItemsField)

  /** Status code and decoded body; `Err` when the body is not JSON. */
  datatype SearchReply = SearchReply(status: int, body: Result<SearchBody>)

  function ThumbUrl(t: Option<Thumb>): Option<string> {
    if t.Some? then t.value.url else None
  }

  /** The medium thumbnail's url when it is truthy, otherwise the default one's. */
  function ThumbnailOf(sn: Snippet): (r: Option<string>)
    ensures sn.thumbnails.None? ==> r.None?
    ensures sn.thumbnails.Some? && Truthy(ThumbUrl(sn.thumbnails.value.medium)) ==>
      r == ThumbUrl(sn.thumbnails.value.medium)
    ensures sn.thumbnails.Some? && !Truthy(ThumbUrl(sn.thumbnails.value.medium)) ==>
      r == ThumbUrl(sn.thumbnails.value.defaultSize)
  {
    if sn.thumbnails.None? then None
    else
      var medium := ThumbUrl(sn.thumbnails.value.medium);
      if Truthy(medium) then medium else ThumbUrl(sn.thumbnails.value.defaultSize)
  }

  /** One search item as a recommendation; a missing id, videoId or snippet raises KeyError. */
  function MapItem(item: Item): (r: Result<Video>)
    ensures r.Ok? <==> item.id.Some? && item.id.value.videoId.Some? && item.snippet.Some?
    ensures r.Ok? ==>
      var v := r.value;
      v.videoId == item.id.value.videoId.value && v.url == WatchUrl + v.videoId
      && v.title == item.snippet.value.title && v.channelName == item.snippet.value.channelTitle
      && v.thumbnailUrl == ThumbnailOf(item.snippet.value)
      && v.viewCount.None? && v.duration.None?
  {
    if item.id.None? then Err("'id'")
    else if item.id.value.videoId.None? then Err("'videoId'")
    else if item.snippet.None? then Err("'snippet'")
    else
      var vid := item.id.value.videoId.value;
      var sn := item.snippet.value;
      Ok(Video(sn.title, vid, ThumbnailOf(sn), sn.channelTitle, WatchUrl + vid, None, None))
  }

  /** All items in order, or the error of the first item that cannot be mapped. */
  function MapItems(items: seq<Item>): (r: Result<seq<Video>>)
    ensures r.Ok? <==> forall i :: 0 <= i < |items| ==> MapItem(items[i]).Ok?
    ensures r.Ok? ==> |r.value| == |items| && forall i :: 0 <= i < |items| ==> r.value[i] == MapItem(items[i]).value
    ensures r.Ok? ==> UrlsFromIds(r.value, WatchUrl)
  {
    if |items| == 0 then Ok([])
    else
      var front := MapItems(items[..|items| - 1]);
      if front.Err? then
        assert forall i :: 0 <= i < |items| - 1 ==> items[..|items| - 1][i] == items[i];
        front
      else
        var last := MapItem(items[|items| - 1]);
        if last.Err? then Err(last.msg) else Ok(front.value + [last.value])
  }

  /** Once a prefix fails, the whole sequence fails with the same message. */
  lemma {:induction false} MapItemsErrExtends(items: seq<Item>, n: nat)
    requires n <= |items| && MapItems(items[..n]).Err?
    ensures MapItems(items) == MapItems(items[..n])
    decreases |items| - n
  {
    if n < |items| {
      var m := n + 1;
      assert items[..m][..m - 1] == items[..n];
      MapItemsErrExtends(items, m);
    } else {
      assert items[..n] == items;
    }
  }

  /** The whole of `get_recommendations`, as a function of the key and the HTTP client. */
  function Recommendations(apiKey: Option<string>, baseUrl: string, query: string, maxResults: int,
                           fetch: (string, SearchParams) -> Result<SearchReply>): (r: Result<seq<Video>>)
    ensures !Truthy(apiKey) ==> r == Ok(MockList(query, maxResults))
    ensures Truthy(apiKey) ==>
      var reply := fetch(baseUrl, ParamsFor(query, maxResults, apiKey.value));
      (reply.Err? ==> r == Err(reply.msg))
      && (reply.Ok? && reply.value.status != 200 ==> r == Ok(MockList(query, maxResults)))
      && (reply.Ok? && reply.value.status == 200 && reply.value.body.Err? ==> r == Err(reply.value.body.msg))
      && (reply.Ok? && reply.value.status == 200 && reply.value.body.Ok? ==>
            r == ItemsResult(reply.value.body.value.items))
    ensures r.Err? ==> Truthy(apiKey)
    ensures r.Ok? ==> UrlsFromIds(r.value, WatchUrl)
  {
    if !Truthy(apiKey) then Ok(MockList(query, maxResults))
    else
      var reply := fetch(baseUrl, ParamsFor(query, maxResults, apiKey.value));
      if reply.Err? then Err(reply.msg)
      else if reply.value.status != 200 then Ok(MockList(query, maxResults))
      else if reply.value.body.Err? then Err(reply.value.body.msg)
      else ItemsResult(reply.value.body.value.items)
  }

  /** `for item in data.get("items", [])`: no items gives [], a `null` raises TypeError. */
  function ItemsResult(items: ItemsField): (r: Result<seq<Video>>)
    ensures items.NoItems? ==> r == Ok([])
    ensures items.NullItems? ==> r.Err?
    ensures items.ItemList? ==> r == MapItems(items.list)
  {
    match items
    case NoItems => Ok([])
    case NullItems => Err("'NoneType' object is not iterable")
    case ItemList(list) => MapItems(list)
  }

  /** The client is consulted only at the search endpoint with `ParamsFor`: clients that agree there give the same answer. */
  lemma OnlyThisRequest(apiKey: Option<string>, baseUrl: string, query: string, maxResults: int,
                        f1: (string, SearchParams) -> Result<SearchReply>,
                        f2: (string, SearchParams) -> Result<SearchReply>)
    requires Truthy(apiKey) ==>
      f1(baseUrl, ParamsFor(query, maxResults, apiKey.value)) == f2(baseUrl, ParamsFor(query, maxResults, apiKey.value))
    ensures Recommendations(apiKey, baseUrl, query, maxResults, f1)
         == Recommendations(apiKey, baseUrl, query, maxResults, f2)
  {
  }

  /** Without a key the client is never used. */
  lemma NoKeyNoRequest(baseUrl: string, query: string, maxResults: int,
                       f1: (string, SearchParams) -> Result<SearchReply>,
                       f2: (string, SearchParams) -> Result<SearchReply>)
    ensures Recommendations(None, baseUrl, query, maxResults, f1)
         == Recommendations(None, baseUrl, query, maxResults, f2)
  {
  }

  /** A non-200 answer yields exactly the placeholders, as if no key were set. */
  lemma Non200FallsBack(key: string, baseUrl: string, query: string, maxResults: int,
                        fetch: (string, SearchParams) -> Result<SearchReply>)
    requires key != ""
    requires fetch(baseUrl, ParamsFor(query, maxResults, key)).Ok?
    requires fetch(baseUrl, ParamsFor(query, maxResults, key)).value.status != 200
    ensures Recommendations(Some(key), baseUrl, query, maxResults, fetch)
         == Recommendations(None, baseUrl, query, maxResults, fetch)
  {
  }

  class YouTubeService {
    const apiKey: Option<string>
    const baseUrl: string

    /** `apiKey` is the YOUTUBE_API_KEY environment variable. */
    constructor (env: Option<string>)
      ensures apiKey == env && baseUrl == SearchEndpoint
    {
      apiKey := env;
      baseUrl := SearchEndpoint;
    }

    method GetRecommendations(query: string, maxResults: int,
                              fetch: (string, SearchParams) -> Result<SearchReply>)
      returns (r: Result<seq<Video>>)
      ensures r == Recommendations(apiKey, baseUrl, query, maxResults, fetch)
    {
      if !Truthy(apiKey) {
        var mock := MockResults(query, maxResults);
        return Ok(mock);
      }
      var reply := fetch(baseUrl, ParamsFor(query, maxResults, apiKey.value));
      if reply.Err? {
        return Err(reply.msg);
      }
      if reply.value.status != 200 {
        var mock := MockResults(query, maxResults);
        return Ok(mock);
      }
      if reply.value.body.Err? {
        return Err(reply.value.body.msg);
      }
      if reply.value.body.value.items.NullItems? {
        return Err("'NoneType' object is not iterable");
      }
      var items := if reply.value.body.value.items.ItemList? then reply.value.body.value.items.list else [];
      var results: seq<Video> := [];
      var i := 0;
      while i < |items|
        invariant 0 <= i <= |items|
        invariant MapItems(items[..i]) == Ok(results)
      {
        var v := MapItem(items[i]);
        assert items[..i + 1][..i] == items[..i];
        if v.Err? {
          MapItemsErrExtends(items, i + 1);
          return Err(v.msg);
        }
        results := results + [v.value];
        i := i + 1;
      }
      assert items[..i] == items;
      return Ok(results);
    }

    method MockResults(query: string, maxResults: int) returns (results: seq<Video>)
      ensures results == MockList(query, maxResults)
    {
      results := [];
      var i := 0;
      while i < maxResults
        invariant 0 <= i <= Max(maxResults, 0)
        invariant results == MockList(query, i)
      {
        results := results + [MockEntry(query, i + 1)];
        i := i + 1;
      }
    }
  }
}
