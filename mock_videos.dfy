/**
 * The numbered placeholder recommendations produced when no YouTube key
 * is configured (Python `_mock_results`, Java `generateMockRecommendations`,
 * the Node fallback): entry k (counting from 1) is `mock-video-k`.
 */
module MockVideos {
  import opened Common
  import opened Payloads

  const WatchUrl := "https://www.youtube.com/watch?v="
  const MockThumbnail := "https://img.youtube.com/vi/dQw4w9WgXcQ/mqdefault.jpg"
  const MockChannel := "Mock Channel"

  function MockId(k: nat): string {
    "mock-video-" + NatToString(k)
  }

  /** The k-th placeholder (k >= 1) for a query. */
  function MockEntry(query: string, k: nat): Video {
    Video(Some("Mock result " + NatToString(k) + " for '" + query + "'"), MockId(k),
          Some(MockThumbnail), Some(MockChannel), WatchUrl + MockId(k), None, None)
  }

  /** `n` placeholders numbered 1..n; a negative count gives none, as `range(n)` does. */
  function MockList(query: string, n: int): (r: seq<Video>)
    ensures |r| == Max(n, 0)
    ensures forall i :: 0 <= i < |r| ==> r[i] == MockEntry(query, i + 1)
    ensures UrlsFromIds(r, WatchUrl)
    decreases n
  {
    if n <= 0 then [] else MockList(query, n - 1) + [MockEntry(query, n)]
  }

  lemma MockIdInjective(a: nat, b: nat)
    requires MockId(a) == MockId(b)
    ensures a == b
  {
    assert MockId(a)[11..] == NatToString(a);
    assert MockId(b)[11..] == NatToString(b);
    NatToStringInjective(a, b);
  }

  /** No two placeholders share an id. */
  lemma MockListDistinct(query: string, n: int)
    ensures DistinctIds(MockList(query, n))
  {
    var r := MockList(query, n);
    forall i, j | 0 <= i < j < |r| ensures r[i].videoId != r[j].videoId {
      if r[i].videoId == r[j].videoId {
        MockIdInjective(i + 1, j + 1);
      }
    }
  }

  /** Every placeholder title quotes the query. */
  lemma MockTitlesQuoteQuery(query: string, n: int)
    ensures forall i :: 0 <= i < |MockList(query, n)| ==>
      ContainsSub(MockList(query, n)[i].title.value, "'" + query + "'")
  {
    var r := MockList(query, n);
    forall i | 0 <= i < |r| ensures ContainsSub(r[i].title.value, "'" + query + "'") {
      var pre := "Mock result " + NatToString(i + 1) + " for ";
      assert r[i].title.value == pre + ("'" + query + "'") + "";
      ContainsMiddle(pre, "'" + query + "'", "");
    }
  }
}
