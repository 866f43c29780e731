/**
 * The integrated search (`utils/integrated_search.py`): Places results, topped up from
 * the web search when there are too few, sorted by rating and cut to size; and the
 * enhancement pass that fills an empty region, description, facility list or feature
 * list of each record from what the record already holds.
 *
 * The region, facility and feature scans of this file use the same prefecture list and
 * the same two vocabularies as the web-search adapter, so they are the functions
 * `WebSearch.ExtractRegionFromText`, `WebSearch.ExtractFacilitiesFromText` and
 * `WebSearch.ExtractFeaturesFromText`.
 */
module IntegratedSearch {
  import opened Wrappers
  import opened Text
  import opened Ordering
  import opened Records
  import opened WebSearch
  import opened PlacesApiNew

  const CampWord: string := "キャンプ場"
  const QueryTail: string := "に関連したキャンプ体験ができる場所です。"

  // ------------------------------------------------------------------
  // generate_description
  // ------------------------------------------------------------------

  /** `s += piece` when `cond` holds. */
  function AppendIf(s: string, cond: bool, piece: string): (r: string)
    ensures StartsWith(r, s)
  {
    if cond then s + piece else s
  }

  /** The text `generate_description` builds, one conditional `+=` at a time. */
  function Description(name: string, region: string, features: seq<string>, facilities: seq<string>,
                       query: string): string
  {
    var opening := AppendIf(name + "は", region != "", region + "にある") + "キャンプ場です。";
    var withFeatures := AppendIf(opening, features != [], FeatureSentence(features));
    var withFacilities := AppendIf(withFeatures, facilities != [], FacilitySentence(facilities));
    AppendIf(withFacilities, MentionsQuery(query), query + QueryTail)
  }

  /** The feature sentence: the first three features, joined by ", ". */
  function FeatureSentence(features: seq<string>): string {
    "特徴としては" + Join(", ", Take(features, 3)) + "などがあります。"
  }

  function FacilitySentence(facilities: seq<string>): string {
    "設備には" + Join(", ", Take(facilities, 3)) + "などが整っています。"
  }

  /** Whether the query sentence is added: the query is non-empty and does not name キャンプ場. */
  predicate MentionsQuery(query: string) {
    query != "" && !Contains(query, CampWord)
  }

  /** `generate_description`: the sentence is built with `+=`. */
  method GenerateDescription(site: Campsite, query: string) returns (description: string)
    ensures description == Description(site.name, site.region, site.features, site.facilities, query)
  {
    description := site.name + "は";
    if site.region != "" {
      description := description + (site.region + "にある");
    }
    description := description + "キャンプ場です。";
    if site.features != [] {
      description := description + FeatureSentence(site.features);
    }
    if site.facilities != [] {
      description := description + FacilitySentence(site.facilities);
    }
    if MentionsQuery(query) {
      description := description + (query + QueryTail);
    }
  }

  /** Every generated description opens with the name followed by "は". */
  lemma DescriptionOpensWithName(name: string, region: string, features: seq<string>, facilities: seq<string>,
                                 query: string)
    ensures StartsWith(Description(name, region, features, facilities, query), name + "は")
  {
    var first := AppendIf(name + "は", region != "", region + "にある");
    var opening := first + "キャンプ場です。";
    assert StartsWith(opening, name + "は") by {
      assert opening[..|name + "は"|] == first[..|name + "は"|];
    }
    var withFeatures := AppendIf(opening, features != [], FeatureSentence(features));
    var withFacilities := AppendIf(withFeatures, facilities != [], FacilitySentence(facilities));
    StartsWithTransitive(withFeatures, opening, name + "は");
    StartsWithTransitive(withFacilities, withFeatures, name + "は");
    StartsWithTransitive(Description(name, region, features, facilities, query), withFacilities, name + "は");
  }

  lemma StartsWithTransitive(s: string, t: string, p: string)
    requires StartsWith(s, t) && StartsWith(t, p)
    ensures StartsWith(s, p)
  {
    assert s[..|p|] == s[..|t|][..|p|];
  }

  /** Only the first three features and the first three facilities are ever mentioned. */
  lemma DescriptionMentionsAtMostThree(name: string, region: string, features: seq<string>,
                                       facilities: seq<string>, query: string)
    ensures Description(name, region, features, facilities, query)
         == Description(name, region, Take(features, 3), Take(facilities, 3), query)
  {
    TakeThree(features);
    TakeThree(facilities);
  }

  /** Cutting a list to three changes neither whether it is empty nor its first three. */
  lemma TakeThree(xs: seq<string>)
    ensures Take(Take(xs, 3), 3) == Take(xs, 3)
    ensures xs != [] <==> Take(xs, 3) != []
  {
    if xs != [] {
      assert Take(xs, 3)[0] == xs[0];
    }
  }

  /**
   * The query sentence is appended exactly when the query is non-empty and lacks
   * キャンプ場; otherwise the query has no influence on the text.
   */
  lemma DescriptionQuerySentence(name: string, region: string, features: seq<string>,
                                 facilities: seq<string>, query: string)
    ensures !MentionsQuery(query) ==>
      Description(name, region, features, facilities, query) == Description(name, region, features, facilities, "")
    ensures MentionsQuery(query) ==>
      Description(name, region, features, facilities, query)
        == Description(name, region, features, facilities, "") + query + QueryTail
  {
  }

  // ------------------------------------------------------------------
  // enhance_search_results
  // ------------------------------------------------------------------

  /** The region after enhancement: an empty region is filled from a non-empty address. */
  function FilledRegion(region: string, address: string): (r: string)
    ensures region != "" ==> r == region
    ensures region == "" && address == "" ==> r == ""
    ensures region == "" && address != "" ==> r == ExtractRegionFromText(address)
    ensures region == "" && (exists p :: p in Prefectures && Contains(address, p)) ==>
      r in Prefectures && Contains(address, r)
  {
    if region == "" && address != "" then ExtractRegionFromText(address) else region
  }

  /** The description after enhancement: an empty one is generated when there is a name. */
  function FilledDescription(site: Campsite, region: string, query: string): (d: string)
    ensures site.description != "" ==> d == site.description
    ensures site.name != "" ==> d != ""
    ensures site.description == "" && site.name == "" ==> d == ""
    ensures site.description == "" && site.name != "" ==>
      d == Description(site.name, region, site.features, site.facilities, query) && StartsWith(d, site.name + "は")
  {
    if site.description == "" && site.name != "" then
      DescriptionOpensWithName(site.name, region, site.features, site.facilities, query);
      Description(site.name, region, site.features, site.facilities, query)
    else site.description
  }

  /** The facility list after enhancement: an empty one is filled from a non-empty description. */
  function FilledFacilities(facilities: seq<string>, description: string): (r: seq<string>)
    ensures facilities != [] ==> r == facilities
    ensures description == "" ==> r == facilities
    ensures facilities == [] && description != "" ==> r == ExtractFacilitiesFromText(description)
    ensures facilities == [] ==> forall w :: w in r <==> w in FacilityKeywords && description != "" && Contains(description, w)
  {
    if facilities == [] && description != "" then ExtractFacilitiesFromText(description) else facilities
  }

  function FilledFeatures(features: seq<string>, description: string): (r: seq<string>)
    ensures features != [] ==> r == features
    ensures description == "" ==> r == features
    ensures features == [] && description != "" ==> r == ExtractFeaturesFromText(description)
    ensures features == [] ==> forall w :: w in r <==> w in FeatureKeywords && description != "" && Contains(description, w)
  {
    if features == [] && description != "" then ExtractFeaturesFromText(description) else features
  }

  /**
   * One record after enhancement: region, then description (which may use the new
   * region), then facilities and features (which may use the new description).
   */
  function EnhancedSite(site: Campsite, query: string): Campsite {
    var region := FilledRegion(site.region, site.address);
    var description := FilledDescription(site, region, query);
    site.(region := region, description := description,
          facilities := FilledFacilities(site.facilities, description),
          features := FilledFeatures(site.features, description))
  }

  /**
   * Enhancement touches only the four fields, and only those that were empty: a field
   * that is already set is never changed. A named record always ends with a description,
   * and one generated here opens with the name.
   */
  lemma EnhancedSiteKeeps(site: Campsite, query: string)
    ensures var r := EnhancedSite(site, query);
      && r.(region := site.region, description := site.description, facilities := site.facilities,
            features := site.features) == site
      && (site.region != "" ==> r.region == site.region)
      && (site.description != "" ==> r.description == site.description)
      && (site.facilities != [] ==> r.facilities == site.facilities)
      && (site.features != [] ==> r.features == site.features)
      && (site.name != "" ==> r.description != "")
      && (site.description == "" && site.name != "" ==> StartsWith(r.description, site.name + "は"))
  {
    var r := EnhancedSite(site, query);
    if site.description == "" && site.name != "" {
      DescriptionOpensWithName(site.name, r.region, site.features, site.facilities, query);
    }
  }

  /**
   * What enhancement fills in: an empty region the first prefecture of a non-empty
   * address; an empty description the generated one when there is a name (it stays
   * empty otherwise); empty facility and feature lists the keyword hits of the
   * description the record then has (they stay empty when it has none).
   */
  lemma EnhancedSiteFills(site: Campsite, query: string)
    ensures site.region == "" && site.address != "" ==>
      EnhancedSite(site, query).region == ExtractRegionFromText(site.address)
    ensures site.region == "" && site.address == "" ==> EnhancedSite(site, query).region == ""
    ensures site.description == "" && site.name == "" ==> EnhancedSite(site, query).description == ""
    ensures site.description == "" && site.name != "" ==>
      EnhancedSite(site, query).description ==
        Description(site.name, EnhancedSite(site, query).region, site.features, site.facilities, query)
    ensures site.facilities == [] ==>
      EnhancedSite(site, query).facilities == FilledFacilities([], EnhancedSite(site, query).description)
    ensures site.features == [] ==>
      EnhancedSite(site, query).features == FilledFeatures([], EnhancedSite(site, query).description)
  {
  }

  /**
   * The body of the loop in `enhance_search_results`: the copy of the record is updated
   * field by field, each step seeing the fields the earlier steps filled.
   */
  method EnhanceSite(site0: Campsite, query: string) returns (site: Campsite)
    ensures site == EnhancedSite(site0, query)
  {
    var region := FillRegionStep(site0.region, site0.address);
    var description := FillDescriptionStep(site0, region, query);
    var facilities := FillFacilitiesStep(site0.facilities, description);
    var features := FillFeaturesStep(site0.features, description);
    site := site0.(region := region, description := description, facilities := facilities, features := features);
  }

  /** `if not region and address: region = _extract_region_from_text(address)`. */
  method FillRegionStep(region0: string, address: string) returns (region: string)
    ensures region == FilledRegion(region0, address)
  {
    region := region0;
    if region == "" && address != "" {
      region := ExtractRegionFromText(address);
    }
  }

  /** `if not description and name: description = generate_description(...)`. */
  method FillDescriptionStep(site0: Campsite, region: string, query: string) returns (description: string)
    ensures description == FilledDescription(site0, region, query)
  {
    description := site0.description;
    if description == "" && site0.name != "" {
      description := GenerateDescription(site0.(region := region), query);
    }
  }

  /** `if not facilities and description: facilities = _extract_facilities_from_text(...)`. */
  method FillFacilitiesStep(facilities0: seq<string>, description: string) returns (facilities: seq<string>)
    ensures facilities == FilledFacilities(facilities0, description)
  {
    facilities := facilities0;
    if facilities == [] && description != "" {
      facilities := ExtractFacilitiesFromText(description);
    }
  }

  /** `if not features and description: features = _extract_features_from_text(...)`. */
  method FillFeaturesStep(features0: seq<string>, description: string) returns (features: seq<string>)
    ensures features == FilledFeatures(features0, description)
  {
    features := features0;
    if features == [] && description != "" {
      features := ExtractFeaturesFromText(description);
    }
  }

  /**
   * `enhance_search_results`: each record is enhanced and collected; the output lists
   * the same records, as many, in the same order.
   */
  method EnhanceSearchResults(campsites: seq<Campsite>, query: string) returns (enhanced: seq<Campsite>)
    ensures |enhanced| == |campsites|
    ensures forall j :: 0 <= j < |campsites| ==> enhanced[j] == EnhancedSite(campsites[j], query)
  {
    ghost var enhance := (s: Campsite) => EnhancedSite(s, query);
    enhanced := [];
    for i := 0 to |campsites|
      invariant enhanced == MapSeq(campsites[..i], enhance)
    {
      var site := EnhanceSite(campsites[i], query);
      assert enhance(campsites[i]) == site;
      MapSeqSnoc(campsites[..i], campsites[i], enhance);
      PrefixSnoc(campsites, i);
      enhanced := enhanced + [site];
    }
    assert campsites[..|campsites|] == campsites;
    MapSeqAt(campsites, enhance);
  }

  /** A record whose four fields are already set (or have no source) is left as it is. */
  lemma FilledSiteUnchanged(site: Campsite, query: string)
    requires site.region != "" || site.address == ""
    requires site.description != "" && site.facilities != [] && site.features != []
    ensures EnhancedSite(site, query) == site
  {
    var region := FilledRegion(site.region, site.address);
    assert region == site.region;
    assert FilledDescription(site, region, query) == site.description;
  }

  /** Enhancing twice changes nothing more: every filled field is then non-empty or has no source. */
  lemma EnhanceSettles(site: Campsite, query: string)
    requires site.name != ""
    requires EnhancedSite(site, query).facilities != [] && EnhancedSite(site, query).features != []
    requires EnhancedSite(site, query).region != "" || site.address == ""
    ensures EnhancedSite(EnhancedSite(site, query), query) == EnhancedSite(site, query)
  {
    EnhancedSiteKeeps(site, query);
    FilledSiteUnchanged(EnhancedSite(site, query), query);
  }


  // ------------------------------------------------------------------
  // search_campsites_integrated
  // ------------------------------------------------------------------

  /** Whether the web search is consulted: it is enabled and Places gave fewer than `maxResults`. */
  predicate WantsWeb(useWebSearch: bool, places: seq<Campsite>, maxResults: nat) {
    useWebSearch && |places| < maxResults
  }

  /** The integrated list: Places results, combined with the web results when consulted, by rating. */
  function Integrated(places: seq<Campsite>, useWebSearch: bool, web: Option<seq<Campsite>>, maxResults: nat)
    : seq<Campsite>
  {
    var results := if WantsWeb(useWebSearch, places, maxResults) && web.Some?
      then Combined(places, web.value, maxResults) else places;
    Take(SortDesc(results, RatingOf), maxResults)
  }

  /**
   * `search_campsites_integrated`. The Places response and details lookup are passed in
   * for the converter; `web` is the web search's result list, `None` when it raised.
   */
  method SearchCampsitesIntegrated(useWebSearch: bool, maxResults: nat, placesData: PlacesData,
                                   details: string -> Option<Details>, web: Option<seq<Campsite>>)
    returns (results: seq<Campsite>)
    ensures results == Integrated(Converted(placesData, details), useWebSearch, web, maxResults)
  {
    var placesResults := ConvertPlacesToAppFormat(placesData, details);
    results := placesResults;
    if useWebSearch && |results| < maxResults {
      if web.Some? {
        results := CombineSearchResults(results, web.value, maxResults);
      }
    }
    results := SortDesc(results, RatingOf);
    results := Take(results, maxResults);
  }

  /**
   * The list is in descending rating order and at most `maxResults` long; it holds only
   * Places records unless the web search was consulted and answered.
   */
  lemma IntegratedShape(places: seq<Campsite>, useWebSearch: bool, web: Option<seq<Campsite>>, maxResults: nat)
    ensures var r := Integrated(places, useWebSearch, web, maxResults);
      && |r| <= maxResults
      && SortedDesc(r, RatingOf)
      && (!WantsWeb(useWebSearch, places, maxResults) || web.None? ==> multiset(r) <= multiset(places))
      && (WantsWeb(useWebSearch, places, maxResults) && web.Some? ==>
            multiset(r) <= multiset(Combined(places, web.value, maxResults)))
  {
    var results := if WantsWeb(useWebSearch, places, maxResults) && web.Some?
      then Combined(places, web.value, maxResults) else places;
    var sorted := SortDesc(results, RatingOf);
    PrefixOfSorted(sorted, RatingOf, |Take(sorted, maxResults)|);
  }
}
