/**
 * The search pipeline of `utils/parallel_search.py`: Places results, nearby results
 * and the web fallback gathered and de-duplicated by place id; the search-and-analyse
 * bundle with its featured and popular picks; the photo and review enrichment of the
 * picked records, run one record after the other; the photo fetch; and the review
 * summariser's rule-based fallback.
 *
 * Every call into the network or a model is a parameter: the converted Places and
 * nearby answers, the details and photo lookups, and the model replies.
 */
module ParallelSearch {
  import opened Wrappers
  import opened Text
  import opened Ordering
  import opened Records
  import opened PlacesApiNew
  import opened SearchEvaluator
  import opened JsonFence

  // ------------------------------------------------------------------
  // parallel_search: gathering and de-duplication
  // ------------------------------------------------------------------

  /** The dictionary `parallel_search` returns. */
  datatype SearchResults = SearchResults(campsites: seq<Campsite>, sources: seq<string>)

  const PlacesSource: string := "places_api"
  const NearbySource: string := "nearby"
  const WebSource: string := "web"

  /**
   * `search_places_api`: the converted records, or `None` for the error dictionary,
   * which is handed back when the response carries `error`.
   */
  function SearchPlacesApi(data: PlacesData, details: string -> Option<Details>): (r: Option<seq<Campsite>>)
    ensures r.None? <==> data.Dict? && data.hasError
    ensures r.Some? ==> r.value == Converted(data, details)
  {
    if data.Dict? && data.hasError then None else Some(Converted(data, details))
  }

  /** The place ids of the records so far (the list `existing_ids`). */
  function PlaceIds(sites: seq<Campsite>): (ids: seq<string>)
    ensures |ids| == |sites|
  {
    MapSeq(sites, PlaceIdOf)
  }

  /** The set of place ids carried by `s`. */
  function IdSet(s: seq<Campsite>): set<string>
    decreases |s|
  {
    if s == [] then {} else IdSet(s[..|s| - 1]) + {s[|s| - 1].placeId}
  }

  lemma IdSetSnoc(s: seq<Campsite>, c: Campsite)
    ensures IdSet(s + [c]) == IdSet(s) + {c.placeId}
  {
    assert (s + [c])[..|s|] == s;
  }

  /** An id is in `IdSet(s)` exactly when some record of `s` carries it. */
  lemma {:induction false} IdSetMembers(s: seq<Campsite>)
    ensures forall x :: x in IdSet(s) <==> exists j :: 0 <= j < |s| && s[j].placeId == x
    decreases |s|
  {
    if s != [] {
      var init := s[..|s| - 1];
      IdSetMembers(init);
      forall x ensures x in IdSet(s) <==> exists j :: 0 <= j < |s| && s[j].placeId == x {
        if x in IdSet(init) {
          var j :| 0 <= j < |init| && init[j].placeId == x;
          assert s[j].placeId == x;
        }
        if j :| 0 <= j < |s| && s[j].placeId == x {
          if j < |init| {
            assert init[j].placeId == x;
          }
        }
      }
    }
  }

  /**
   * The de-duplication loop: a record is kept when its id is non-empty and no kept
   * record carries it yet.
   */
  function Dedup(s: seq<Campsite>): seq<Campsite>
    decreases |s|
  {
    if s == [] then []
    else
      var kept := Dedup(s[..|s| - 1]);
      var c := s[|s| - 1];
      if c.placeId != "" && c.placeId !in IdSet(kept) then kept + [c] else kept
  }

  lemma DedupSnoc(s: seq<Campsite>, c: Campsite)
    ensures Dedup(s + [c]) == if c.placeId != "" && c.placeId !in IdSet(Dedup(s)) then Dedup(s) + [c] else Dedup(s)
  {
    assert (s + [c])[..|s|] == s;
  }

  /** The de-duplication loop over `search_results["campsites"]`. */
  method DedupById(campsites: seq<Campsite>) returns (unique: seq<Campsite>)
    ensures unique == Dedup(campsites)
  {
    unique := [];
    var seenIds: set<string> := {};
    for i := 0 to |campsites|
      invariant unique == Dedup(campsites[..i])
      invariant seenIds == IdSet(unique)
    {
      var campsite := campsites[i];
      var placeId := campsite.placeId;
      PrefixSnoc(campsites, i);
      DedupSnoc(campsites[..i], campsite);
      if placeId != "" && placeId !in seenIds {
        IdSetSnoc(unique, campsite);
        seenIds := seenIds + {placeId};
        unique := unique + [campsite];
      }
    }
    assert campsites[..|campsites|] == campsites;
  }

  /** Every kept record has a non-empty id. */
  lemma {:induction false} DedupIdsPresent(s: seq<Campsite>)
    ensures forall j :: 0 <= j < |Dedup(s)| ==> Dedup(s)[j].placeId != ""
    decreases |s|
  {
    if s != [] {
      InitLast(s);
      DedupIdsPresent(s[..|s| - 1]);
      DedupSnoc(s[..|s| - 1], s[|s| - 1]);
    }
  }

  /** No id is kept twice. */
  lemma {:induction false} DedupDistinct(s: seq<Campsite>)
    ensures forall i, j :: 0 <= i < j < |Dedup(s)| ==> Dedup(s)[i].placeId != Dedup(s)[j].placeId
    decreases |s|
  {
    if s != [] {
      var init, c := s[..|s| - 1], s[|s| - 1];
      InitLast(s);
      DedupDistinct(init);
      DedupSnoc(init, c);
      IdSetMembers(Dedup(init));
    }
  }

  /** Every non-empty id of the input is carried by a kept record. */
  lemma {:induction false} DedupCovers(s: seq<Campsite>)
    ensures forall i :: 0 <= i < |s| && s[i].placeId != "" ==> s[i].placeId in IdSet(Dedup(s))
    decreases |s|
  {
    if s != [] {
      var init, c := s[..|s| - 1], s[|s| - 1];
      InitLast(s);
      DedupCovers(init);
      DedupSnoc(init, c);
      if c.placeId != "" && c.placeId !in IdSet(Dedup(init)) {
        IdSetSnoc(Dedup(init), c);
      }
      forall i | 0 <= i < |s| && s[i].placeId != "" ensures s[i].placeId in IdSet(Dedup(s)) {
        if i < |init| {
          assert s[i] == init[i];
        }
      }
    }
  }

  /** The kept records keep their input order. */
  lemma {:induction false} DedupSubsequence(s: seq<Campsite>)
    ensures IsSubsequence(Dedup(s), s)
    decreases |s|
  {
    if s != [] {
      var init, c := s[..|s| - 1], s[|s| - 1];
      InitLast(s);
      DedupSubsequence(init);
      DedupSnoc(init, c);
      var keep := c.placeId != "" && c.placeId !in IdSet(Dedup(init));
      SubsequenceSnoc(Dedup(init), init, c, keep);
      if !keep {
        assert Dedup(init) + [] == Dedup(init);
      }
    }
  }

  /** The record kept for an id is the first record of the input carrying it. */
  lemma {:induction false} DedupFirstSeen(s: seq<Campsite>)
    ensures forall j :: 0 <= j < |Dedup(s)| ==>
      exists i :: 0 <= i < |s| && s[i] == Dedup(s)[j] && forall k :: 0 <= k < i ==> s[k].placeId != s[i].placeId
    decreases |s|
  {
    if s != [] {
      var init, c := s[..|s| - 1], s[|s| - 1];
      var kept := Dedup(init);
      InitLast(s);
      DedupFirstSeen(init);
      DedupSnoc(init, c);
      DedupCovers(init);
      var d := Dedup(s);
      forall j | 0 <= j < |d|
        ensures exists i :: 0 <= i < |s| && s[i] == d[j] && forall k :: 0 <= k < i ==> s[k].placeId != s[i].placeId
      {
        if j < |kept| {
          assert d[j] == kept[j];
          var i :| 0 <= i < |init| && init[i] == kept[j] && forall k :: 0 <= k < i ==> init[k].placeId != init[i].placeId;
          assert s[i] == init[i];
          forall k | 0 <= k < i ensures s[k].placeId != s[i].placeId {
            assert s[k] == init[k];
          }
          assert 0 <= i < |s| && s[i] == d[j] && forall k :: 0 <= k < i ==> s[k].placeId != s[i].placeId;
        } else {
          assert |d| > |kept|;
          assert c.placeId != "" && c.placeId !in IdSet(kept);
          assert d[j] == c;
          forall k | 0 <= k < |init| ensures s[k].placeId != c.placeId {
            assert s[k] == init[k];
          }
          assert s[|init|] == c;
          var i := |init|;
          assert 0 <= i < |s| && s[i] == d[j] && forall k :: 0 <= k < i ==> s[k].placeId != s[i].placeId;
        }
      }
    } else {
      assert Dedup(s) == [];
    }
  }

  /** The nearby records whose id is not among the records gathered so far. */
  function FreshNearby(existing: seq<Campsite>, nearby: seq<Campsite>): seq<Campsite> {
    Filter(nearby, (c: Campsite) => c.placeId !in PlaceIds(existing))
  }

  /** The nearby step: extend with the unseen nearby records, and tag `nearby` once. */
  function WithNearby(r: SearchResults, nearby: seq<Campsite>): SearchResults {
    var unseen := FreshNearby(r.campsites, nearby);
    if unseen == [] then r
    else SearchResults(r.campsites + unseen, if NearbySource in r.sources then r.sources else r.sources + [NearbySource])
  }

  /**
   * The records before de-duplication: a non-empty Places list, then (with a location)
   * the unseen nearby records. `places` is `None` for the error dictionary and `nearby`
   * is `None` when the nearby search raised.
   */
  function Gathered(places: Option<seq<Campsite>>, hasLocation: bool, nearby: Option<seq<Campsite>>): SearchResults {
    var fromPlaces := if places.Some? && places.value != [] then SearchResults(places.value, [PlacesSource])
                      else SearchResults([], []);
    if hasLocation && nearby.Some? then WithNearby(fromPlaces, nearby.value) else fromPlaces
  }

  /** The whole of `parallel_search`: gather, de-duplicate, and fall back to the web answer. */
  function ParallelSearched(places: Option<seq<Campsite>>, hasLocation: bool, nearby: Option<seq<Campsite>>,
                            web: seq<Campsite>): SearchResults
  {
    var gathered := Gathered(places, hasLocation, nearby);
    var unique := Dedup(gathered.campsites);
    if unique == [] && web != [] then SearchResults(web, gathered.sources + [WebSource])
    else SearchResults(unique, gathered.sources)
  }

  /**
   * `parallel_search`. `places` is the answer of `search_places_api` (`None` for its
   * error dictionary), `hasLocation` says that a location with `lat` and `lng` was
   * given, `nearby` is the converted nearby answer (`None` when that search raised) and
   * `web` is the web search's answer.
   */
  method Search(places: Option<seq<Campsite>>, hasLocation: bool, nearby: Option<seq<Campsite>>,
                web: seq<Campsite>)
    returns (results: SearchResults)
    ensures results == ParallelSearched(places, hasLocation, nearby, web)
  {
    results := SearchResults([], []);
    if places.Some? && places.value != [] {
      results := results.(campsites := results.campsites + places.value, sources := results.sources + [PlacesSource]);
      assert results.campsites == places.value;
    }
    if hasLocation && nearby.Some? {
      var nearbyCampsites := nearby.value;
      if nearbyCampsites != [] {
        var uniqueNearby := FreshNearby(results.campsites, nearbyCampsites);
        if uniqueNearby != [] {
          var sources := results.sources;
          if NearbySource !in sources {
            sources := sources + [NearbySource];
          }
          results := SearchResults(results.campsites + uniqueNearby, sources);
        }
      } else {
        assert FreshNearby(results.campsites, nearbyCampsites) == [];
      }
    }
    assert results == Gathered(places, hasLocation, nearby);
    var uniqueCampsites := DedupById(results.campsites);
    results := results.(campsites := uniqueCampsites);
    if results.campsites == [] {
      if web != [] {
        results := SearchResults(results.campsites + web, results.sources + [WebSource]);
        assert results.campsites == web;
      }
    }
  }

  /**
   * The nearby step adds only records whose id was not yet present, all of them
   * nearby records, and tags `nearby` at most once.
   */
  lemma WithNearbyShape(r: SearchResults, nearby: seq<Campsite>)
    ensures var r' := WithNearby(r, nearby);
      && |r.campsites| <= |r'.campsites| && r'.campsites[..|r.campsites|] == r.campsites
      && (forall j :: |r.campsites| <= j < |r'.campsites| ==>
            r'.campsites[j] in nearby && forall i :: 0 <= i < |r.campsites| ==> r'.campsites[j].placeId != r.campsites[i].placeId)
      && (multiset(r.sources)[NearbySource] <= 1 ==> multiset(r'.sources)[NearbySource] <= 1)
      && (r'.campsites != r.campsites ==> NearbySource in r'.sources)
  {
    var unseen := FreshNearby(r.campsites, nearby);
    FilterMembers(nearby, (c: Campsite) => c.placeId !in PlaceIds(r.campsites));
    MapSeqAt(r.campsites, PlaceIdOf);
    if unseen != [] {
      var r' := WithNearby(r, nearby);
      assert r'.campsites[..|r.campsites|] == r.campsites;
      forall j | |r.campsites| <= j < |r'.campsites|
        ensures r'.campsites[j] in nearby && forall i :: 0 <= i < |r.campsites| ==> r'.campsites[j].placeId != r.campsites[i].placeId
      {
        assert r'.campsites[j] == unseen[j - |r.campsites|];
      }
    }
  }

  /**
   * Records are kept only with a non-empty, unique id, each the first record carrying
   * it, in gathered order, and every gathered id survives; the web answer is used
   * exactly when nothing survives and it is non-empty.
   */
  lemma ParallelSearchShape(places: Option<seq<Campsite>>, hasLocation: bool, nearby: Option<seq<Campsite>>,
                            web: seq<Campsite>)
    ensures var g, r := Gathered(places, hasLocation, nearby), ParallelSearched(places, hasLocation, nearby, web);
      && (WebSource in r.sources <==> Dedup(g.campsites) == [] && web != [])
      && (WebSource !in r.sources ==> r.campsites == Dedup(g.campsites))
      && (WebSource in r.sources ==> r.campsites == web)
  {
    GatheredSources(places, hasLocation, nearby);
  }

  /** The gathered sources are `places_api` and `nearby`, each at most once. */
  lemma GatheredSources(places: Option<seq<Campsite>>, hasLocation: bool, nearby: Option<seq<Campsite>>)
    ensures var s := Gathered(places, hasLocation, nearby).sources;
      && WebSource !in s && NoDup(s)
      && forall x :: x in s ==> x == PlacesSource || x == NearbySource
  {
  }

  /** Hence each source tag appears at most once in the result. */
  lemma SourcesNoRepeat(places: Option<seq<Campsite>>, hasLocation: bool, nearby: Option<seq<Campsite>>,
                        web: seq<Campsite>)
    ensures NoDup(ParallelSearched(places, hasLocation, nearby, web).sources)
  {
    GatheredSources(places, hasLocation, nearby);
  }

  /** The de-duplicated records: ids present and unique, first-seen records, input order. */
  lemma DedupShape(s: seq<Campsite>)
    ensures var d := Dedup(s);
      && (forall j :: 0 <= j < |d| ==> d[j].placeId != "")
      && (forall i, j :: 0 <= i < j < |d| ==> d[i].placeId != d[j].placeId)
      && IsSubsequence(d, s)
      && (forall i :: 0 <= i < |s| && s[i].placeId != "" ==> exists j :: 0 <= j < |d| && d[j].placeId == s[i].placeId)
  {
    DedupIdsPresent(s);
    DedupDistinct(s);
    DedupSubsequence(s);
    DedupCovers(s);
    IdSetMembers(Dedup(s));
  }

  /** An error answer from Places contributes exactly what an empty answer does: nothing. */
  lemma PlacesErrorContributesNothing(hasLocation: bool, nearby: Option<seq<Campsite>>, web: seq<Campsite>)
    ensures ParallelSearched(None, hasLocation, nearby, web) == ParallelSearched(Some([]), hasLocation, nearby, web)
  {
  }

  // ------------------------------------------------------------------
  // analyze_campsite_reviews
  // ------------------------------------------------------------------

  /** The analysis dictionary: `summary`, `features`, `trends` and `recommendation`. */
  datatype ReviewAnalysis = ReviewAnalysis(summary: string, features: seq<string>, trends: seq<string>,
                                           recommendation: string)

  /**
   * The reply slicing exactly as written: `find("```json") + 7` is at least 6, so the
   * guard `json_start != -1` always holds, and a reply without the opening fence is
   * sliced from position 6 up to its first "```".
   */
  function ReviewSliceAsWritten(response: string): Option<string> {
    var start := Find(response, OpenFence, 0) + 7;
    var end := Find(response, CloseFence, start);
    if start != -1 && end != -1 then Some(Strip(response[start..end])) else None
  }

  /**
   * The slicing as evidently intended: only a reply holding the opening fence and a
   * closing fence after it yields a JSON text, the stripped text between the two.
   */
  function ReviewSlice(response: string): Option<string> {
    var open := Find(response, OpenFence, 0);
    if open == -1 then None
    else
      var start := open + 7;
      var end := Find(response, CloseFence, start);
      if end == -1 then None else Some(Strip(response[start..end]))
  }

  /** A reply with the opening fence is sliced alike by both versions. */
  lemma ReviewSliceAgreesWithFence(response: string)
    requires Contains(response, OpenFence)
    ensures ReviewSliceAsWritten(response) == ReviewSlice(response)
  {
    ContainsIffOccurs(response, OpenFence);
    var i :| OccursAt(response, OpenFence, i);
    assert Find(response, OpenFence, 0) != -1;
  }

  /**
   * A reply without the opening fence still yields a JSON text as written: "reply: {}```"
   * is sliced to "{}", which parses, so the model's unfenced answer is taken instead
   * of the rule-based fallback.
   */
  const UnfencedReply: string := "reply: {}```"

  lemma ReviewSliceAsWrittenCounterexample()
    ensures !Contains(UnfencedReply, OpenFence)
    ensures ReviewSliceAsWritten(UnfencedReply) == Some("{}")
    ensures ReviewSlice(UnfencedReply) == None
  {
    UnfencedReplyFinds();
    UnfencedReplyCloses();
    StripBraces();
    UnfencedSlices(UnfencedReply, 9);
  }

  /** A reply without the opening fence, but with "```" at `close` (from position 6 on), as sliced by each version. */
  lemma UnfencedSlices(response: string, close: int)
    requires Find(response, OpenFence, 0) == -1
    requires close != -1 && Find(response, CloseFence, 6) == close
    ensures ReviewSliceAsWritten(response) == Some(Strip(response[6..close]))
    ensures ReviewSlice(response) == None
  {
  }

  /** The unfenced reply "reply: {}```" has no opening fence. */
  lemma UnfencedReplyFinds()
    ensures !Contains(UnfencedReply, OpenFence)
    ensures Find(UnfencedReply, OpenFence, 0) == -1
  {
    NotContainsByLast(UnfencedReply, OpenFence);
    FindAbsent(UnfencedReply, OpenFence);
  }

  /** Its first closing fence from position 6 on is at position 9. */
  lemma UnfencedReplyCloses()
    ensures Find(UnfencedReply, CloseFence, 6) == 9
  {
    var r := UnfencedReply;
    forall j | 6 <= j < 9 ensures !OccursAt(r, CloseFence, j) {
      assert r[j..j + 3][0] == r[j];
    }
    assert r[9..12] == CloseFence;
    FindFirst(r, CloseFence, 6, 9);
  }

  /** What lies between position 6 and the closing fence strips to "{}". */
  lemma StripBraces()
    ensures Strip(UnfencedReply[6..9]) == "{}"
  {
    assert UnfencedReply[6..9] == " {}";
    assert " {}"[1..] == "{}" && IsSpace(' ') && !IsSpace('{') && !IsSpace('}');
    assert SpaceEnd(" {}", 0) == 1;
    assert SpaceStart(" {}", 1, 3) == 3;
  }

  /**
   * The intended slice is taken only from a reply holding the opening fence, and it is
   * the stripped text right after the first opening fence up to the next closing one.
   */
  lemma ReviewSliceShape(response: string)
    ensures !Contains(response, OpenFence) ==> ReviewSlice(response) == None
    ensures ReviewSlice(response).Some? ==>
      exists i, j :: 7 <= i <= j && OccursAt(response, OpenFence, i - 7) && OccursAt(response, CloseFence, j)
        && ReviewSlice(response).value == Strip(response[i..j])
        && forall k :: 0 <= k < i - 7 ==> !OccursAt(response, OpenFence, k)
  {
    ContainsIffOccurs(response, OpenFence);
    var open := Find(response, OpenFence, 0);
    if open != -1 {
      var end := Find(response, CloseFence, open + 7);
      if end != -1 {
        assert OccursAt(response, OpenFence, open + 7 - 7);
      }
    }
  }

  const ReviewKeywordsA: seq<string> := [
    "景色", "自然", "環境", "立地", "アクセス", "設備", "施設", "清潔", "きれい", "広い", "静か"]
  const ReviewKeywordsB: seq<string> := [
    "家族", "子供", "ペット", "テント", "キャンピングカー", "コテージ", "バンガロー", "温泉", "川", "海", "山"]
  const ReviewKeywordsC: seq<string> := [
    "湖", "森", "トイレ", "シャワー", "風呂", "炊事場", "売店", "薪", "焚き火", "BBQ", "バーベキュー"]

  /** The description keywords of the fallback, in their order. */
  const ReviewKeywords: seq<string> := ReviewKeywordsA + ReviewKeywordsB + ReviewKeywordsC

  /** The description keywords found in the description, in keyword order. */
  function DescriptionKeywords(description: string): seq<string> {
    Filter(ReviewKeywords, (w: string) => Contains(description, w))
  }

  /**
   * `extracted_features`: up to five facilities, up to five features, then the
   * description keywords found.
   */
  function ExtractedFeatures(site: Campsite): seq<string> {
    Take(site.facilities, 5) + Take(site.features, 5)
      + (if site.description != "" then DescriptionKeywords(site.description) else [])
  }

  /** `unique` lists the items of `xs` once each, in some order (the order of `list(set(xs))`). */
  ghost predicate IsEnumeration(unique: seq<string>, xs: seq<string>) {
    NoDup(unique) && forall x :: x in unique <==> x in xs
  }

  /** The rating band text, by the thresholds 4.5, 4.0, 3.5 and 3.0 (ratings in tenths). */
  function RatingTrend(rating: int): string {
    if rating >= 45 then "評価が非常に高い"
    else if rating >= 40 then "評価が高い"
    else if rating >= 35 then "評価が良好"
    else if rating >= 30 then "評価が平均的"
    else "評価が平均以下"
  }

  /** The review-count band text, by the thresholds 1000, 500, 100 and 10. */
  function PopularityTrend(reviewsCount: int): string {
    if reviewsCount >= 1000 then "非常に人気がある"
    else if reviewsCount >= 500 then "人気がある"
    else if reviewsCount >= 100 then "ある程度知られている"
    else if reviewsCount >= 10 then "口コミが少ない"
    else "あまり知られていない"
  }

  /** The rating sentence of the summary, by the same thresholds. */
  function RatingSentence(rating: int): string {
    if rating >= 45 then "評価が非常に高く、多くの利用者から好評を得ています。"
    else if rating >= 40 then "評価が高く、利用者からの評判が良いキャンプ場です。"
    else if rating >= 35 then "一般的に良い評価を受けているキャンプ場です。"
    else if rating >= 30 then "平均的な評価を受けているキャンプ場です。"
    else "評価は平均以下ですが、"
  }

  /** `trends.append(text)` when `cond` holds. */
  function AddIf(trends: seq<string>, cond: bool, text: string): (r: seq<string>)
    ensures |trends| <= |r| && r[..|trends|] == trends
  {
    if cond then trends + [text] else trends
  }

  /** The feature-based trends, each added when the joined feature text names it. */
  function SceneryTrends(trends: seq<string>, joined: string): seq<string> {
    var t1 := AddIf(trends, Contains(joined, "湖") || Contains(joined, "湖畔"), "湖畔の景色が魅力");
    var t2 := AddIf(t1, Contains(joined, "山"), "山の景色が魅力");
    var t3 := AddIf(t2, Contains(joined, "森"), "森の中の静かな環境");
    var t4 := AddIf(t3, Contains(joined, "海") || Contains(joined, "ビーチ"), "海の近くの立地");
    var t5 := AddIf(t4, Contains(joined, "温泉"), "温泉施設あり");
    var t6 := AddIf(t5, Contains(joined, "子供") || Contains(joined, "ファミリー"), "家族連れに人気");
    AddIf(t6, Contains(joined, "ペット"), "ペット同伴可能")
  }

  /** The feature-based trends only ever follow the trends already there. */
  lemma SceneryTrendsPrefix(trends: seq<string>, joined: string)
    ensures var r := SceneryTrends(trends, joined); |trends| <= |r| && r[..|trends|] == trends
  {
    var t1 := AddIf(trends, Contains(joined, "湖") || Contains(joined, "湖畔"), "湖畔の景色が魅力");
    var t2 := AddIf(t1, Contains(joined, "山"), "山の景色が魅力");
    var t3 := AddIf(t2, Contains(joined, "森"), "森の中の静かな環境");
    var t4 := AddIf(t3, Contains(joined, "海") || Contains(joined, "ビーチ"), "海の近くの立地");
    var t5 := AddIf(t4, Contains(joined, "温泉"), "温泉施設あり");
    var t6 := AddIf(t5, Contains(joined, "子供") || Contains(joined, "ファミリー"), "家族連れに人気");
    var t7 := AddIf(t6, Contains(joined, "ペット"), "ペット同伴可能");
    assert t7 == SceneryTrends(trends, joined);
    PrefixChain(trends, t1, t2);
    PrefixChain(trends, t2, t3);
    PrefixChain(trends, t3, t4);
    PrefixChain(trends, t4, t5);
    PrefixChain(trends, t5, t6);
    PrefixChain(trends, t6, t7);
  }

  lemma PrefixChain(a: seq<string>, b: seq<string>, c: seq<string>)
    requires |a| <= |b| && b[..|a|] == a
    requires |b| <= |c| && c[..|b|] == b
    ensures |a| <= |c| && c[..|a|] == a
  {
    assert c[..|a|] == c[..|b|][..|a|];
  }

  function LocalTrends(site: Campsite, unique: seq<string>): seq<string> {
    SceneryTrends([RatingTrend(site.rating), PopularityTrend(site.reviewsCount)], Join(" ", unique))
  }

  /** The summary: name, rating sentence, up to three features, then the first two trends. */
  function LocalSummary(name: string, rating: int, unique: seq<string>, trends: seq<string>): string {
    var opening := name + "は" + RatingSentence(rating);
    var withFeatures := if unique != [] then opening + (" " + Join(", ", Take(unique, 3)) + "などの特徴があります。")
                        else opening;
    if |trends| > 2 then withFeatures + (" " + trends[0] + "で、" + trends[1] + "キャンプ場です。")
    else withFeatures
  }

  function LocalRecommendation(rating: int, unique: seq<string>): string {
    if rating >= 40 && unique != [] then "評価が高く、特に" + Join(", ", Take(unique, 3)) + "が充実したおすすめのキャンプ場です。"
    else if rating >= 35 && unique != [] then Join(", ", Take(unique, 3)) + "が特徴的な、一般的に良い評価を受けているキャンプ場です。"
    else "基本的な設備が整ったキャンプ場で、" + Join(", ", if unique != [] then Take(unique, 3) else ["自然環境"]) + "が楽しめます。"
  }

  /** The rule-based analysis, for the feature order `unique` that `list(set(...))` gave. */
  function LocalAnalysis(site: Campsite, unique: seq<string>): ReviewAnalysis {
    var trends := LocalTrends(site, unique);
    ReviewAnalysis(LocalSummary(site.name, site.rating, unique, trends), Take(unique, 10), trends,
                   LocalRecommendation(site.rating, unique))
  }

  /** The rule-based branch of `analyze_campsite_reviews`, building trends and summary step by step. */
  method AnalyzeLocally(site: Campsite, unique: seq<string>) returns (analysis: ReviewAnalysis)
    ensures analysis == LocalAnalysis(site, unique)
  {
    var trends := [RatingTrend(site.rating), PopularityTrend(site.reviewsCount)];
    var joined := Join(" ", unique);
    trends := AddTrends(trends, joined);
    var summary := site.name + "は";
    summary := summary + RatingSentence(site.rating);
    if unique != [] {
      summary := summary + (" " + Join(", ", Take(unique, 3)) + "などの特徴があります。");
    }
    if |trends| > 2 {
      summary := summary + (" " + trends[0] + "で、" + trends[1] + "キャンプ場です。");
    }
    var recommendation := LocalRecommendation(site.rating, unique);
    analysis := ReviewAnalysis(summary, Take(unique, 10), trends, recommendation);
  }

  /** The seven feature-based `trends.append` steps. */
  method AddTrends(trends0: seq<string>, joined: string) returns (trends: seq<string>)
    ensures trends == SceneryTrends(trends0, joined)
  {
    trends := trends0;
    if Contains(joined, "湖") || Contains(joined, "湖畔") {
      trends := trends + ["湖畔の景色が魅力"];
    }
    if Contains(joined, "山") {
      trends := trends + ["山の景色が魅力"];
    }
    if Contains(joined, "森") {
      trends := trends + ["森の中の静かな環境"];
    }
    if Contains(joined, "海") || Contains(joined, "ビーチ") {
      trends := trends + ["海の近くの立地"];
    }
    if Contains(joined, "温泉") {
      trends := trends + ["温泉施設あり"];
    }
    if Contains(joined, "子供") || Contains(joined, "ファミリー") {
      trends := trends + ["家族連れに人気"];
    }
    if Contains(joined, "ペット") {
      trends := trends + ["ペット同伴可能"];
    }
  }

  /**
   * `analyze_campsite_reviews`: the model's analysis when its reply (`None` when the
   * call raised) slices and decodes, otherwise the rule-based one. `arrange` stands
   * for the order in which `list(set(...))` lists the extracted features.
   */
  function ReviewAnalysisOf(site: Campsite, reply: Option<string>, decode: string -> Option<ReviewAnalysis>,
                            arrange: seq<string> -> seq<string>): ReviewAnalysis
  {
    var sliced := if reply.Some? then ReviewSlice(reply.value) else None;
    var decoded := if sliced.Some? then decode(sliced.value) else None;
    if decoded.Some? then decoded.value else LocalAnalysis(site, arrange(ExtractedFeatures(site)))
  }

  /**
   * The rule-based analysis: the first trend is the rating band and the second the
   * review-count band; at most ten features; the summary opens with the name and the
   * rating sentence.
   */
  lemma LocalAnalysisShape(site: Campsite, unique: seq<string>)
    ensures var a := LocalAnalysis(site, unique);
      && |a.trends| >= 2
      && a.trends[0] == RatingTrend(site.rating)
      && a.trends[1] == PopularityTrend(site.reviewsCount)
      && |a.features| <= 10
      && StartsWith(a.summary, site.name + "は" + RatingSentence(site.rating))
  {
    var base := [RatingTrend(site.rating), PopularityTrend(site.reviewsCount)];
    var trends := LocalTrends(site, unique);
    SceneryTrendsPrefix(base, Join(" ", unique));
    assert trends[..2] == base;
    assert trends[0] == trends[..2][0];
    assert trends[1] == trends[..2][1];
  }

  /** For any order of the extracted features, the listed features are extracted ones, none twice. */
  lemma LocalFeaturesFromExtracted(site: Campsite, unique: seq<string>)
    requires IsEnumeration(unique, ExtractedFeatures(site))
    ensures var f := LocalAnalysis(site, unique).features;
      NoDup(f) && forall x :: x in f ==> x in ExtractedFeatures(site)
  {
    var f := Take(unique, 10);
    assert forall x :: x in f ==> x in unique;
  }

  /** The rating bands: each text is given for exactly its range of ratings. */
  lemma RatingTrendBands(rating: int)
    ensures RatingTrend(rating) == "評価が非常に高い" <==> rating >= 45
    ensures RatingTrend(rating) == "評価が高い" <==> 40 <= rating < 45
    ensures RatingTrend(rating) == "評価が良好" <==> 35 <= rating < 40
    ensures RatingTrend(rating) == "評価が平均的" <==> 30 <= rating < 35
    ensures RatingTrend(rating) == "評価が平均以下" <==> rating < 30
  {
  }

  /** The review-count bands: each text is given for exactly its range of counts. */
  lemma PopularityTrendBands(reviewsCount: int)
    ensures PopularityTrend(reviewsCount) == "非常に人気がある" <==> reviewsCount >= 1000
    ensures PopularityTrend(reviewsCount) == "人気がある" <==> 500 <= reviewsCount < 1000
    ensures PopularityTrend(reviewsCount) == "ある程度知られている" <==> 100 <= reviewsCount < 500
    ensures PopularityTrend(reviewsCount) == "口コミが少ない" <==> 10 <= reviewsCount < 100
    ensures PopularityTrend(reviewsCount) == "あまり知られていない" <==> reviewsCount < 10
  {
  }

  /** A decoded model reply wins; a reply that does not slice or decode leaves the rule-based analysis. */
  lemma ReviewAnalysisChoice(site: Campsite, reply: Option<string>, decode: string -> Option<ReviewAnalysis>,
                             arrange: seq<string> -> seq<string>)
    ensures reply.None? ==> ReviewAnalysisOf(site, reply, decode, arrange) == LocalAnalysis(site, arrange(ExtractedFeatures(site)))
    ensures reply.Some? && !Contains(reply.value, OpenFence) ==>
      ReviewAnalysisOf(site, reply, decode, arrange) == LocalAnalysis(site, arrange(ExtractedFeatures(site)))
    ensures reply.Some? && ReviewSlice(reply.value).Some? && decode(ReviewSlice(reply.value).value).Some? ==>
      ReviewAnalysisOf(site, reply, decode, arrange) == decode(ReviewSlice(reply.value).value).value
  {
    if reply.Some? {
      ReviewSliceShape(reply.value);
    }
  }

  // ------------------------------------------------------------------
  // fetch_photos_for_campsite
  // ------------------------------------------------------------------

  /**
   * The part of `get_place_details_new`'s answer the photo fetch reads: the two links
   * and, for each photo entry, its `name` when it has one. Its error answer has none
   * of these keys.
   */
  datatype PhotoDetails = PhotoDetails(googleMapsUri: Option<string>, websiteUri: Option<string>,
                                       photos: Option<seq<Option<string>>>)

  /** At most six photos are fetched per record. */
  const PhotoLimit: nat := 6

  /** The names of the photo entries that have one, in order. */
  function PresentNames(photos: seq<Option<string>>): (names: seq<string>)
    ensures |names| <= |photos|
    ensures forall n :: n in names <==> Some(n) in photos
  {
    if photos == [] then []
    else
      var init := photos[..|photos| - 1];
      var last := photos[|photos| - 1];
      assert photos == init + [last];
      PresentNames(init) + (if last.Some? then [last.value] else [])
  }

  function DetailNames(d: PhotoDetails): seq<string> {
    if d.photos.Some? then PresentNames(d.photos.value) else []
  }

  /**
   * The truthy URLs `get_place_photo_new` gives for `names`, in order. `lookup` is that
   * call, `None` standing both for its `None` and for a call that raised.
   */
  function UrlsFor(names: seq<string>, lookup: string -> Option<string>): (urls: seq<string>)
    ensures |urls| <= |names|
    ensures forall u :: u in urls ==> u != "" && exists n :: n in names && lookup(n) == Some(u)
  {
    if names == [] then []
    else
      var init := names[..|names| - 1];
      var last := names[|names| - 1];
      assert forall n :: n in init ==> n in names;
      UrlsFor(init, lookup) + (if lookup(last).Some? && lookup(last).value != "" then [lookup(last).value] else [])
  }

  /**
   * The URLs of a record: from the first six photo names of its details, and, when
   * those give none, from the first six of the record's own `photo_names`.
   */
  function FetchedUrls(site: Campsite, d: PhotoDetails, lookup: string -> Option<string>): seq<string> {
    var fromDetails := UrlsFor(Take(DetailNames(d), PhotoLimit), lookup);
    if fromDetails != [] then fromDetails else UrlsFor(Take(site.photoNames, PhotoLimit), lookup)
  }

  /** The record with the details' Google Maps and website links copied in where present. */
  function WithDetailLinks(site: Campsite, d: PhotoDetails): Campsite {
    site.(googleMapsUri := d.googleMapsUri.GetOr(site.googleMapsUri),
          websiteUri := d.websiteUri.GetOr(site.websiteUri))
  }

  /** The loop collecting the photo names of the details. */
  method CollectNames(photos: seq<Option<string>>) returns (names: seq<string>)
    ensures names == PresentNames(photos)
  {
    names := [];
    for i := 0 to |photos|
      invariant names == PresentNames(photos[..i])
    {
      assert photos[..i + 1][..i] == photos[..i];
      if photos[i].Some? {
        names := names + [photos[i].value];
      }
    }
    assert photos[..|photos|] == photos;
  }

  /** The loop over `photo_names[:6]`, keeping each truthy URL. */
  method FetchUrls(names: seq<string>, lookup: string -> Option<string>) returns (urls: seq<string>)
    ensures urls == UrlsFor(Take(names, PhotoLimit), lookup)
  {
    var head := Take(names, PhotoLimit);
    urls := [];
    for i := 0 to |head|
      invariant urls == UrlsFor(head[..i], lookup)
    {
      assert head[..i + 1][..i] == head[..i];
      var url := lookup(head[i]);
      if url.Some? && url.value != "" {
        urls := urls + [url.value];
      }
    }
    assert head[..|head|] == head;
  }

  /**
   * `fetch_photos_for_campsite`: the record as the call leaves it (with the details'
   * links) and the URLs it returns.
   */
  method FetchPhotosForCampsite(site: Campsite, d: PhotoDetails, lookup: string -> Option<string>)
    returns (linked: Campsite, urls: seq<string>)
    ensures linked == WithDetailLinks(site, d)
    ensures urls == FetchedUrls(site, d, lookup)
  {
    linked := CopyLinks(site, d);
    urls := FetchAllUrls(site, d, lookup);
  }

  /** The two `if key in details` copies of the links. */
  method CopyLinks(site: Campsite, d: PhotoDetails) returns (linked: Campsite)
    ensures linked == WithDetailLinks(site, d)
  {
    linked := site;
    if d.googleMapsUri.Some? {
      linked := linked.(googleMapsUri := d.googleMapsUri.value);
    }
    if d.websiteUri.Some? {
      linked := linked.(websiteUri := d.websiteUri.value);
    }
  }

  /** The photo-name collection and the two URL loops. */
  method FetchAllUrls(site: Campsite, d: PhotoDetails, lookup: string -> Option<string>) returns (urls: seq<string>)
    ensures urls == FetchedUrls(site, d, lookup)
  {
    var names: seq<string> := [];
    if d.photos.Some? {
      names := CollectNames(d.photos.value);
    }
    urls := [];
    if names != [] {
      urls := FetchUrls(names, lookup);
    }
    if urls == [] {
      var fallback := site.photoNames;
      if fallback != [] {
        urls := FetchUrls(fallback, lookup);
      }
    }
  }

  /**
   * At most six URLs, none empty, each one the lookup of a name taken from the first
   * six of the details or, failing those, the first six of the record; the record's own
   * names are used only when the details' names give no URL.
   */
  lemma FetchedUrlsShape(site: Campsite, d: PhotoDetails, lookup: string -> Option<string>)
    ensures var urls := FetchedUrls(site, d, lookup);
      && |urls| <= PhotoLimit
      && (forall u :: u in urls ==> u != "")
      && (forall u :: u in urls ==> exists n :: (n in Take(DetailNames(d), PhotoLimit) || n in Take(site.photoNames, PhotoLimit))
                                           && lookup(n) == Some(u))
      && (UrlsFor(Take(DetailNames(d), PhotoLimit), lookup) != [] ==> urls == UrlsFor(Take(DetailNames(d), PhotoLimit), lookup))
  {
  }

  /** A name is fetched from the details exactly when a photo entry carries it. */
  lemma DetailNamesExact(d: PhotoDetails, n: string)
    ensures n in DetailNames(d) <==> d.photos.Some? && Some(n) in d.photos.value
  {
  }

  // ------------------------------------------------------------------
  // search_and_analyze
  // ------------------------------------------------------------------

  /** The answers of the outside services `search_and_analyze` reaches. */
  datatype Services = Services(
    hasKey: bool,                                       // GEMINI_API_KEY is set
    evalReply: Option<string>,                          // the evaluator's model answer
    evalDecode: string -> Option<seq<Eval>>,
    details: string -> PhotoDetails,                    // get_place_details_new, by place id
    lookup: string -> Option<string>,                   // get_place_photo_new, by photo name
    reviewReply: Campsite -> Option<string>,            // the review model's answer for a record
    reviewDecode: string -> Option<ReviewAnalysis>,
    arrange: seq<string> -> seq<string>,                // the order list(set(...)) gives
    summarise: seq<Campsite> -> Option<string>)         // the summary model's answer

  /** The returned dictionary. */
  datatype Bundle = Bundle(results: seq<Campsite>, summary: string, featured: seq<Campsite>,
                           popular: seq<Campsite>)

  const NoResultsSummary: string := "検索条件に合うキャンプ場が見つかりませんでした。"

  /** A score of 0.7 or more (in tenths) makes a record a featured candidate. */
  const FeaturedScore: int := 7

  /** The number of featured and of popular records. */
  const ShowCount: nat := 3

  function IsFeaturedCandidate(c: Campsite): bool {
    ScoreOf(c) >= FeaturedScore
  }

  /** `[c for c in sorted_by_score if score >= 0.7][:3]`. */
  function Featured(scored: seq<Campsite>): seq<Campsite> {
    Take(Filter(SortDesc(scored, ScoreOf), IsFeaturedCandidate), ShowCount)
  }

  /** `sorted(..., key=reviews_count, reverse=True)[:3]`. */
  function Popular(scored: seq<Campsite>): seq<Campsite> {
    Take(SortDesc(scored, ReviewsCountOf), ShowCount)
  }

  /** `display_ids`: the place ids of the featured and popular records. */
  function DisplayIds(scored: seq<Campsite>): set<string> {
    IdSet(Featured(scored) + Popular(scored))
  }

  /** A displayed record after its photo fetch: the links always, the photos when some URL came back. */
  function PhotoEnriched(site: Campsite, sv: Services): Campsite {
    var d := sv.details(site.placeId);
    var linked := WithDetailLinks(site, d);
    var urls := FetchedUrls(site, d, sv.lookup);
    if urls != [] then linked.(photoUrls := urls, imageUrl := urls[0]) else linked
  }

  /** A displayed record after its review analysis: the analysis' summary and recommendation. */
  function ReviewEnriched(site: Campsite, sv: Services): Campsite {
    var a := ReviewAnalysisOf(site, sv.reviewReply(site), sv.reviewDecode, sv.arrange);
    site.(reviewSummary := a.summary, aiRecommendation := a.recommendation)
  }

  function PhotoStep(ids: set<string>, sv: Services, c: Campsite): Campsite {
    if c.placeId in ids then PhotoEnriched(c, sv) else c
  }

  function ReviewStep(ids: set<string>, sv: Services, c: Campsite): Campsite {
    if c.placeId in ids then ReviewEnriched(c, sv) else c
  }

  /**
   * The whole pipeline past the search. The featured and popular lists hold the very
   * records of the result list, so they show the same enrichment.
   */
  function Analyzed(scored: seq<Campsite>, sv: Services): Bundle {
    var ids := DisplayIds(scored);
    var photo := (c: Campsite) => PhotoStep(ids, sv, c);
    var review := (c: Campsite) => ReviewStep(ids, sv, c);
    var results := MapSeq(MapSeq(scored, photo), review);
    Bundle(results, GenerateSearchSummary(sv.hasKey, results, ShowCount, sv.summarise),
           MapSeq(MapSeq(Featured(scored), photo), review), MapSeq(MapSeq(Popular(scored), photo), review))
  }

  /** `search_and_analyze` on the search's result. */
  function SearchAnalyzed(found: SearchResults, sv: Services): Bundle {
    if found.campsites == [] then Bundle([], NoResultsSummary, [], [])
    else Analyzed(Evaluation(sv.hasKey, found.campsites, sv.evalReply, sv.evalDecode, 5), sv)
  }

  /** The photo loop over the records, one fetch per displayed record. */
  method AttachPhotos(scored: seq<Campsite>, ids: set<string>, sv: Services) returns (updated: seq<Campsite>)
    ensures updated == MapSeq(scored, (c: Campsite) => PhotoStep(ids, sv, c))
  {
    ghost var photo := (c: Campsite) => PhotoStep(ids, sv, c);
    updated := [];
    for i := 0 to |scored|
      invariant updated == MapSeq(scored[..i], photo)
    {
      var site := scored[i];
      if site.placeId in ids {
        var linked, urls := FetchPhotosForCampsite(site, sv.details(site.placeId), sv.lookup);
        site := linked;
        if urls != [] {
          site := site.(photoUrls := urls, imageUrl := urls[0]);
        }
      }
      assert photo(scored[i]) == site;
      MapSeqSnoc(scored[..i], scored[i], photo);
      PrefixSnoc(scored, i);
      updated := updated + [site];
    }
    assert scored[..|scored|] == scored;
  }

  /** The review loop over the records, one analysis per displayed record. */
  method AttachReviews(scored: seq<Campsite>, ids: set<string>, sv: Services) returns (updated: seq<Campsite>)
    ensures updated == MapSeq(scored, (c: Campsite) => ReviewStep(ids, sv, c))
  {
    ghost var review := (c: Campsite) => ReviewStep(ids, sv, c);
    updated := [];
    for i := 0 to |scored|
      invariant updated == MapSeq(scored[..i], review)
    {
      var site := scored[i];
      if site.placeId in ids {
        var analysis := AnalyzeReviews(site, sv.reviewReply(site), sv.reviewDecode, sv.arrange);
        site := site.(reviewSummary := analysis.summary, aiRecommendation := analysis.recommendation);
      }
      assert review(scored[i]) == site;
      MapSeqSnoc(scored[..i], scored[i], review);
      PrefixSnoc(scored, i);
      updated := updated + [site];
    }
    assert scored[..|scored|] == scored;
  }

  /** `analyze_campsite_reviews`: the model's analysis when it decodes, else the rule-based one. */
  method AnalyzeReviews(site: Campsite, reply: Option<string>, decode: string -> Option<ReviewAnalysis>,
                        arrange: seq<string> -> seq<string>) returns (analysis: ReviewAnalysis)
    ensures analysis == ReviewAnalysisOf(site, reply, decode, arrange)
  {
    if reply.Some? {
      var jsonText := ReviewSlice(reply.value);
      if jsonText.Some? {
        var decoded := decode(jsonText.value);
        if decoded.Some? {
          return decoded.value;
        }
      }
    }
    analysis := AnalyzeLocally(site, arrange(ExtractedFeatures(site)));
  }

  /** `search_and_analyze`, given what `parallel_search` found. */
  method SearchAndAnalyze(found: SearchResults, sv: Services) returns (bundle: Bundle)
    ensures bundle == SearchAnalyzed(found, sv)
  {
    if found.campsites == [] {
      return Bundle([], NoResultsSummary, [], []);
    }
    var scored := EvaluateSearchResults(sv.hasKey, found.campsites, sv.evalReply, sv.evalDecode, 5);
    var featured := Featured(scored);
    var popular := Popular(scored);
    var ids := IdSet(featured + popular);
    var withPhotos := AttachPhotos(scored, ids, sv);
    var results := AttachReviews(withPhotos, ids, sv);
    // The featured and popular lists share their records with the result list.
    var photo := (c: Campsite) => PhotoStep(ids, sv, c);
    var review := (c: Campsite) => ReviewStep(ids, sv, c);
    featured := MapSeq(MapSeq(featured, photo), review);
    popular := MapSeq(MapSeq(popular, photo), review);
    var summary := GenerateSearchSummary(sv.hasKey, results, ShowCount, sv.summarise);
    bundle := Bundle(results, summary, featured, popular);
  }

  /** Filtering a descending list keeps it descending. */
  lemma {:induction false} FilterSorted<T(!new)>(s: seq<T>, key: T -> int, p: T -> bool)
    requires SortedDesc(s, key)
    ensures SortedDesc(Filter(s, p), key)
    decreases |s|
  {
    if s != [] {
      assert SortedDesc(s[1..], key);
      FilterSorted(s[1..], key, p);
      var rest := Filter(s[1..], p);
      FilterMembers(s[1..], p);
      var r := Filter(s, p);
      if p(s[0]) {
        assert r == [s[0]] + rest;
        forall i, j | 0 <= i < j < |r| ensures key(r[i]) >= key(r[j]) {
          assert r[j] == rest[j - 1] && rest[j - 1] in s[1..];
          if i > 0 {
            assert r[i] == rest[i - 1];
          }
        }
      } else {
        assert r == rest;
      }
    }
  }

  /** Filtering takes nothing the list lacks. */
  lemma {:induction false} FilterMultiset<T(!new)>(s: seq<T>, p: T -> bool)
    ensures multiset(Filter(s, p)) <= multiset(s)
    decreases |s|
  {
    if s != [] {
      FilterMultiset(s[1..], p);
      assert s == [s[0]] + s[1..];
    }
  }

  /** The first `n` of the filtered, sorted list: how `Featured` is built, for any record type. */
  lemma TopFilteredShape<T(!new)>(s: seq<T>, key: T -> int, p: T -> bool, n: nat)
    ensures var f := Take(Filter(SortDesc(s, key), p), n);
      && |f| <= n
      && (forall c :: c in f ==> p(c))
      && SortedDesc(f, key)
      && multiset(f) <= multiset(s)
      && (|f| < n ==> forall c :: c in s && p(c) ==> c in f)
      && (forall c, q :: c in s && p(c) && c !in f && q in f ==> key(q) >= key(c))
  {
    var sorted := SortDesc(s, key);
    var kept := Filter(sorted, p);
    FilterMembers(sorted, p);
    FilterSorted(sorted, key, p);
    FilterMultiset(sorted, p);
    var f := Take(kept, n);
    PrefixOfSorted(kept, key, |f|);
    assert f == kept[..|f|];
    forall c | c in s ensures c in sorted {
      assert c in multiset(s);
    }
    PrefixOutranks(kept, key, |f|);
  }

  /** In a list sorted by descending key, nothing outside a prefix outranks what is inside it. */
  lemma PrefixOutranks<T>(s: seq<T>, key: T -> int, n: nat)
    requires SortedDesc(s, key) && n <= |s|
    ensures forall c, q :: c in s && c !in s[..n] && q in s[..n] ==> key(q) >= key(c)
  {
    forall c, q | c in s && c !in s[..n] && q in s[..n] ensures key(q) >= key(c) {
      var j :| 0 <= j < |s| && s[j] == c;
      var i :| 0 <= i < n && s[..n][i] == q;
      assert j >= n;
      assert s[i] == q;
    }
  }

  /** The first `n` of the sorted list: how `Popular` is built, for any record type. */
  lemma TopShape<T>(s: seq<T>, key: T -> int, n: nat)
    ensures var p := Take(SortDesc(s, key), n);
      && |p| == (if |s| < n then |s| else n)
      && SortedDesc(p, key)
      && multiset(p) <= multiset(s)
      && forall c, q :: c in s && c !in p && q in p ==> key(q) >= key(c)
  {
    var sorted := SortDesc(s, key);
    var p := Take(sorted, n);
    PrefixOfSorted(sorted, key, |p|);
    assert p == sorted[..|p|];
    forall c, q | c in s && c !in p && q in p ensures key(q) >= key(c) {
      assert c in multiset(s);
      var j :| 0 <= j < |sorted| && sorted[j] == c;
      var i :| 0 <= i < |p| && p[i] == q;
      assert j >= |p|;
    }
  }

  /**
   * The featured records: at most three, each scoring at least 0.7, best score first,
   * all taken from the scored records; and with fewer than three, every record scoring
   * at least 0.7 is among them.
   */
  lemma FeaturedShape(scored: seq<Campsite>)
    ensures var f := Featured(scored);
      && |f| <= ShowCount
      && (forall c :: c in f ==> ScoreOf(c) >= FeaturedScore)
      && SortedDesc(f, ScoreOf)
      && multiset(f) <= multiset(scored)
      && (|f| < ShowCount ==> forall c :: c in scored && ScoreOf(c) >= FeaturedScore ==> c in f)
      && (forall c, q :: c in scored && ScoreOf(c) >= FeaturedScore && c !in f && q in f ==> ScoreOf(c) <= ScoreOf(q))
  {
    TopFilteredShape(scored, ScoreOf, IsFeaturedCandidate, ShowCount);
  }

  /**
   * The popular records: the three (or all, when fewer) scored records with the most
   * reviews, most reviews first; every record left out has no more reviews than any
   * record shown.
   */
  lemma PopularShape(scored: seq<Campsite>)
    ensures var p := Popular(scored);
      && |p| == (if |scored| < ShowCount then |scored| else ShowCount)
      && SortedDesc(p, ReviewsCountOf)
      && multiset(p) <= multiset(scored)
      && forall c, q :: c in scored && c !in p && q in p ==> ReviewsCountOf(q) >= ReviewsCountOf(c)
  {
    TopShape(scored, ReviewsCountOf, ShowCount);
  }

  /** The record differs from `site` at most in the six fields the enrichment writes. */
  predicate SameButEnrichment(updated: Campsite, site: Campsite) {
    updated == site.(googleMapsUri := updated.googleMapsUri, websiteUri := updated.websiteUri,
                     photoUrls := updated.photoUrls, imageUrl := updated.imageUrl,
                     reviewSummary := updated.reviewSummary, aiRecommendation := updated.aiRecommendation)
  }

  /** Writing the review fields of a record changes only those. */
  lemma ReviewFieldsOnly(site: Campsite, summary: string, recommendation: string)
    ensures SameButEnrichment(site.(reviewSummary := summary, aiRecommendation := recommendation), site)
  {
  }

  /** Writing the link and photo fields of a record changes only those. */
  lemma PhotoFieldsOnly(site: Campsite, maps: string, web: string, urls: seq<string>, image: string)
    ensures SameButEnrichment(site.(googleMapsUri := maps, websiteUri := web, photoUrls := urls, imageUrl := image), site)
  {
  }

  lemma EnrichmentChain(a: Campsite, b: Campsite, c: Campsite)
    requires SameButEnrichment(b, a) && SameButEnrichment(c, b)
    ensures SameButEnrichment(c, a)
  {
  }

  /** One displayed record's enrichment writes only those six fields. */
  lemma EnrichedFrame(ids: set<string>, sv: Services, c: Campsite)
    ensures var e := ReviewStep(ids, sv, PhotoStep(ids, sv, c));
      && SameButEnrichment(e, c)
      && (c.placeId !in ids ==> e == c)
  {
    if c.placeId in ids {
      var p := PhotoEnriched(c, sv);
      var d := sv.details(c.placeId);
      var urls := FetchedUrls(c, d, sv.lookup);
      if urls != [] {
        PhotoFieldsOnly(c, d.googleMapsUri.GetOr(c.googleMapsUri), d.websiteUri.GetOr(c.websiteUri), urls, urls[0]);
      } else {
        PhotoFieldsOnly(c, d.googleMapsUri.GetOr(c.googleMapsUri), d.websiteUri.GetOr(c.websiteUri), c.photoUrls, c.imageUrl);
      }
      var a := ReviewAnalysisOf(p, sv.reviewReply(p), sv.reviewDecode, sv.arrange);
      ReviewFieldsOnly(p, a.summary, a.recommendation);
      EnrichmentChain(c, p, ReviewStep(ids, sv, p));
    }
  }

  /**
   * The result list: as many records as were scored, position by position the scored
   * record when it is not displayed, and otherwise the scored record with at most its
   * links, photos, review summary and recommendation rewritten; a displayed record
   * whose fetch brought URLs shows the first as its image.
   */
  lemma AnalyzedResults(scored: seq<Campsite>, sv: Services)
    ensures var b := Analyzed(scored, sv);
      && |b.results| == |scored|
      && forall i :: 0 <= i < |scored| ==>
           && SameButEnrichment(b.results[i], scored[i])
           && (scored[i].placeId !in DisplayIds(scored) ==> b.results[i] == scored[i])
           && (scored[i].placeId in DisplayIds(scored) ==>
                 var urls := FetchedUrls(scored[i], sv.details(scored[i].placeId), sv.lookup);
                 urls != [] ==> b.results[i].photoUrls == urls && b.results[i].imageUrl == urls[0])
           && (scored[i].placeId in DisplayIds(scored) ==>
                 FetchedUrls(scored[i], sv.details(scored[i].placeId), sv.lookup) == [] ==>
                   b.results[i].photoUrls == scored[i].photoUrls && b.results[i].imageUrl == scored[i].imageUrl)
  {
    var ids := DisplayIds(scored);
    var photo := (c: Campsite) => PhotoStep(ids, sv, c);
    var review := (c: Campsite) => ReviewStep(ids, sv, c);
    var mid := MapSeq(scored, photo);
    MapSeqAt(scored, photo);
    MapSeqAt(mid, review);
    forall i | 0 <= i < |scored|
      ensures Analyzed(scored, sv).results[i] == ReviewStep(ids, sv, PhotoStep(ids, sv, scored[i]))
    {
    }
    forall i | 0 <= i < |scored|
      ensures SameButEnrichment(Analyzed(scored, sv).results[i], scored[i])
    {
      EnrichedFrame(ids, sv, scored[i]);
    }
    forall i | 0 <= i < |scored| && scored[i].placeId in ids
      ensures var urls := FetchedUrls(scored[i], sv.details(scored[i].placeId), sv.lookup);
        && (urls != [] ==> Analyzed(scored, sv).results[i].photoUrls == urls && Analyzed(scored, sv).results[i].imageUrl == urls[0])
        && (urls == [] ==> Analyzed(scored, sv).results[i].photoUrls == scored[i].photoUrls
                           && Analyzed(scored, sv).results[i].imageUrl == scored[i].imageUrl)
    {
      EnrichedPhotos(ids, sv, scored[i]);
    }
  }

  /** A displayed record shows the fetched URLs and the first as its image, or keeps its own when none came. */
  lemma EnrichedPhotos(ids: set<string>, sv: Services, c: Campsite)
    requires c.placeId in ids
    ensures var e := ReviewStep(ids, sv, PhotoStep(ids, sv, c));
      var urls := FetchedUrls(c, sv.details(c.placeId), sv.lookup);
      && (urls != [] ==> e.photoUrls == urls && e.imageUrl == urls[0])
      && (urls == [] ==> e.photoUrls == c.photoUrls && e.imageUrl == c.imageUrl)
  {
  }

  /**
   * The featured and popular lists name records of the result list: each of their
   * records, as returned, is in the returned results.
   */
  lemma ShownAmongResults(scored: seq<Campsite>, sv: Services)
    ensures var b := Analyzed(scored, sv);
      (forall c :: c in b.featured ==> c in b.results) && (forall c :: c in b.popular ==> c in b.results)
  {
    var ids := DisplayIds(scored);
    ShownFromScored(scored);
    SubListAmongResults(scored, Featured(scored), ids, sv);
    SubListAmongResults(scored, Popular(scored), ids, sv);
  }

  lemma ShownFromScored(scored: seq<Campsite>)
    ensures multiset(Featured(scored)) <= multiset(scored)
    ensures multiset(Popular(scored)) <= multiset(scored)
  {
    FeaturedShape(scored);
    PopularShape(scored);
  }

  /** Enriching records drawn from `scored` gives records of the enriched `scored`. */
  lemma SubListAmongResults(scored: seq<Campsite>, shown: seq<Campsite>, ids: set<string>, sv: Services)
    requires multiset(shown) <= multiset(scored)
    ensures var photo := (c: Campsite) => PhotoStep(ids, sv, c);
            var review := (c: Campsite) => ReviewStep(ids, sv, c);
      forall y :: y in MapSeq(MapSeq(shown, photo), review) ==> y in MapSeq(MapSeq(scored, photo), review)
  {
    var enrich := (c: Campsite) => ReviewStep(ids, sv, PhotoStep(ids, sv, c));
    EnrichedList(scored, ids, sv);
    EnrichedList(shown, ids, sv);
    MapSubMultiset(scored, shown, enrich);
  }

  /** Mapping a sub-multiset gives images that are all images of the whole. */
  lemma MapSubMultiset<T, U>(s: seq<T>, t: seq<T>, f: T -> U)
    requires multiset(t) <= multiset(s)
    ensures forall y :: y in MapSeq(t, f) ==> y in MapSeq(s, f)
  {
    MapSeqAt(t, f);
    forall y | y in MapSeq(t, f) ensures y in MapSeq(s, f) {
      var j :| 0 <= j < |t| && MapSeq(t, f)[j] == y;
      assert t[j] in multiset(t);
      MapSeqMember(s, f, t[j]);
    }
  }

  /** The two passes over a list are one pass of the combined enrichment. */
  lemma EnrichedList(s: seq<Campsite>, ids: set<string>, sv: Services)
    ensures MapSeq(MapSeq(s, (c: Campsite) => PhotoStep(ids, sv, c)), (c: Campsite) => ReviewStep(ids, sv, c))
         == MapSeq(s, (c: Campsite) => ReviewStep(ids, sv, PhotoStep(ids, sv, c)))
  {
    var photo := (c: Campsite) => PhotoStep(ids, sv, c);
    var review := (c: Campsite) => ReviewStep(ids, sv, c);
    var enrich := (c: Campsite) => ReviewStep(ids, sv, PhotoStep(ids, sv, c));
    MapSeqAt(s, photo);
    MapSeqAt(MapSeq(s, photo), review);
    MapSeqAt(s, enrich);
  }

  /**
   * No search result gives the fixed "nothing found" answer; otherwise every found
   * record comes back, and the summary is empty without a model key.
   */
  lemma SearchAnalyzedShape(found: SearchResults, sv: Services)
    ensures found.campsites == [] ==> SearchAnalyzed(found, sv) == Bundle([], NoResultsSummary, [], [])
    ensures |SearchAnalyzed(found, sv).results| == |found.campsites|
    ensures found.campsites != [] && !sv.hasKey ==> SearchAnalyzed(found, sv).summary == ""
  {
    if found.campsites != [] {
      var scored := Evaluation(sv.hasKey, found.campsites, sv.evalReply, sv.evalDecode, 5);
      AnalyzedResults(scored, sv);
    }
  }
}
