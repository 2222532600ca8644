/**
 * The curated recommendation service the FastAPI apps are wired to
 * (backend/services/simple_youtube_service.py): it never calls YouTube;
 * it picks a fixed catalogue by keywords in the lower-cased query and
 * returns `catalogue[:max_results]`.
 */
module SimpleYouTube {
  import opened Common
  import opened Payloads
  import opened Keywords

  datatype Category = Math | Biology | History | Study | General

  const MathWords: seq<string> := ["calculus", "derivative", "integral", "math"]
  const BiologyWords: seq<string> := ["photosynthesis", "biology", "plant"]
  const HistoryWords: seq<string> := ["history", "historical", "war"]
  const StudyWords: seq<string> := ["study", "schedule", "productivity"]

  /** The keyword groups in the order they are tried, and the category each selects. */
  const Groups: seq<seq<string>> := [MathWords, BiologyWords, HistoryWords, StudyWords]
  const Ordered: seq<Category> := [Math, Biology, History, Study]

  /** The first category one of whose keywords occurs in the lower-cased query. */
  function SelectCategory(query: string): (c: Category)
    ensures c == General <==> forall j :: 0 <= j < |Groups| ==> !AnyIn(Groups[j], Lower(query))
    ensures c != General ==> exists k :: (0 <= k < |Groups| && Ordered[k] == c
      && AnyIn(Groups[k], Lower(query)) && forall j :: 0 <= j < k ==> !AnyIn(Groups[j], Lower(query)))
  {
    var k := FirstMatch(Groups, Lower(query));
    if k < |Groups| then Ordered[k] else General
  }

  const CatalogueWatchUrl := "https://youtube.com/watch?v="

  /** A catalogue entry; its thumbnail and link are spelled out from its id. */
  function Entry(title: string, id: string, channel: string, views: nat, duration: string): Video {
    Video(Some(title), id, Some("https://img.youtube.com/vi/" + id + "/maxresdefault.jpg"), Some(channel),
          CatalogueWatchUrl + id, Some(views), Some(duration))
  }

  /** The fixed list for each category; only the general list mentions the query. */
  function Catalogue(c: Category, query: string): seq<Video> {
    match c
    case Math => [
      Entry("Calculus Fundamentals - Derivatives Explained", "calc_001", "Khan Academy", 1500000, "12:34"),
      Entry("Integration Techniques - Step by Step", "calc_002", "Professor Leonard", 850000, "18:45"),
      Entry("Calculus Applications in Real Life", "calc_003", "3Blue1Brown", 2100000, "15:22")]
    case Biology => [
      Entry("Photosynthesis: Light and Dark Reactions", "bio_001", "Crash Course Biology", 980000, "11:28"),
      Entry("How Plants Make Food - Photosynthesis Process", "bio_002", "Amoeba Sisters", 1200000, "8:15")]
    case History => [
      Entry("World War II in 15 Minutes", "hist_001", "Crash Course World History", 3200000, "14:52"),
      Entry("Ancient Civilizations Documentary", "hist_002", "History Channel", 1800000, "45:30")]
    case Study => [
      Entry("How to Create the Perfect Study Schedule", "study_001", "Thomas Frank", 750000, "10:45"),
      Entry("Study Tips That Actually Work", "study_002", "Ali Abdaal", 2500000, "16:30")]
    case General => [
      Entry("Educational Content About: " + query, "edu_001", "Educational Channel", 500000, "12:00"),
      Entry("Learn More About " + query + " - Complete Guide", "edu_002", "Learning Hub", 320000, "20:15")]
  }

  /** `_mock_recommendations`: a prefix of the selected catalogue, cut by Python slicing. */
  function MockRecommendations(query: string, maxResults: int): (r: seq<Video>)
    ensures r <= Catalogue(SelectCategory(query), query)
    ensures maxResults >= 0 ==> |r| == Min(maxResults, |Catalogue(SelectCategory(query), query)|)
    ensures maxResults < 0 ==> |r| == Max(0, |Catalogue(SelectCategory(query), query)| + maxResults)
  {
    PySliceTo(Catalogue(SelectCategory(query), query), maxResults)
  }

  /** `get_recommendations`: always the curated list; it never raises. */
  function GetRecommendations(apiKey: Option<string>, query: string, maxResults: int): (r: seq<Video>)
    ensures r == MockRecommendations(query, maxResults)
    ensures r <= Catalogue(SelectCategory(query), query)
  {
    MockRecommendations(query, maxResults)
  }

  /** The YOUTUBE_API_KEY setting makes no difference to the answer. */
  lemma KeyIrrelevant(k1: Option<string>, k2: Option<string>, query: string, maxResults: int)
    ensures GetRecommendations(k1, query, maxResults) == GetRecommendations(k2, query, maxResults)
  {
  }

  /** The service reports itself configured whatever the environment holds. */
  function IsConfigured(apiKey: Option<string>): (b: bool)
    ensures b
  {
    true
  }

  /** The catalogue sizes: three math videos, two for every other category. */
  lemma CatalogueSizes(c: Category, query: string)
    ensures |Catalogue(c, query)| == (if c == Math then 3 else 2)
  {
  }

  /** Every catalogue entry links to its own id, and no id repeats within a list. */
  lemma CatalogueLinksFromIds(c: Category, query: string)
    ensures UrlsFromIds(Catalogue(c, query), CatalogueWatchUrl)
    ensures DistinctIds(Catalogue(c, query))
  {
    var cat := Catalogue(c, query);
    forall i | 0 <= i < |cat| ensures cat[i].url == CatalogueWatchUrl + cat[i].videoId {
    }
    match c
    case Math =>
      assert cat[0].videoId[7] == '1' && cat[1].videoId[7] == '2' && cat[2].videoId[7] == '3';
    case Biology =>
      assert cat[0].videoId[6] == '1' && cat[1].videoId[6] == '2';
    case History =>
      assert cat[0].videoId[7] == '1' && cat[1].videoId[7] == '2';
    case Study =>
      assert cat[0].videoId[8] == '1' && cat[1].videoId[8] == '2';
    case General =>
      assert cat[0].videoId[6] == '1' && cat[1].videoId[6] == '2';
  }

  /** The two general videos name the query in their titles. */
  lemma GeneralTitlesMentionQuery(query: string)
    ensures forall v :: v in Catalogue(General, query) ==> ContainsSub(v.title.value, query)
  {
    ContainsMiddle("Educational Content About: ", query, "");
    assert "Educational Content About: " + query == "Educational Content About: " + query + "";
    ContainsMiddle("Learn More About ", query, " - Complete Guide");
  }

  /** A query naming a math keyword always gets the math list, whatever else it names. */
  lemma MathWins(a: string, w: string, b: string)
    requires w in MathWords
    ensures SelectCategory(a + w + b) == Math
  {
    assert Lower(a + w + b) == Lower(a) + w + Lower(b) by {
      assert forall i :: 0 <= i < |w| ==> LowerChar(w[i]) == w[i] by {
        assert forall x :: x in MathWords ==> forall i :: 0 <= i < |x| ==> !('A' <= x[i] <= 'Z');
      }
    }
    WordFound(MathWords, w, Lower(a), Lower(b));
  }
}
