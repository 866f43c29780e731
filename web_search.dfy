/**
 * The web-search adapter (`utils/web_search.py`): turning one search hit into a
 * campsite record, the keyword extractors it uses, and `combine_search_results`,
 * which merges two result lists by lower-cased name, counts duplicates, scores
 * popularity and keeps the most popular records.
 */
module WebSearch {
  import opened Wrappers
  import opened Text
  import opened Ordering
  import opened Records

  /** The 47 prefecture names, scanned in this order (written in five consecutive pieces). */
  const Prefectures: seq<string> := Prefectures1 + Prefectures2 + Prefectures3 + Prefectures4 + Prefectures5

  const Prefectures1: seq<string> := [
    "北海道", "青森県", "岩手県", "宮城県", "秋田県", "山形県", "福島県", "茨城県", "栃木県", "群馬県"]
  const Prefectures2: seq<string> := [
    "埼玉県", "千葉県", "東京都", "神奈川県", "新潟県", "富山県", "石川県", "福井県", "山梨県", "長野県"]
  const Prefectures3: seq<string> := [
    "岐阜県", "静岡県", "愛知県", "三重県", "滋賀県", "京都府", "大阪府", "兵庫県", "奈良県", "和歌山県"]
  const Prefectures4: seq<string> := [
    "鳥取県", "島根県", "岡山県", "広島県", "山口県", "徳島県", "香川県", "愛媛県", "高知県", "福岡県"]
  const Prefectures5: seq<string> := [
    "佐賀県", "長崎県", "熊本県", "大分県", "宮崎県", "鹿児島県", "沖縄県"]

  const FacilityKeywords: seq<string> := [
    "トイレ", "シャワー", "炊事場", "売店", "レンタル", "電源", "Wi-Fi", "温泉", "コインランドリー",
    "ドッグラン", "遊具", "バーベキュー", "BBQ", "焚き火"]

  const FeatureKeywords: seq<string> := [
    "オートキャンプ", "グランピング", "コテージ", "バンガロー", "テントサイト", "フリーサイト", "区画サイト",
    "ペット", "釣り", "川遊び", "海水浴", "富士山", "山", "湖", "海", "川", "森", "高規格", "手ぶら",
    "初心者向け", "ファミリー"]

  const PlaceholderImage: string := "https://" + "via.placeholder.com/400x300?text=No+Image"

  lemma VocabulariesHaveNoDuplicates()
    ensures NoDup(FacilityKeywords) && NoDup(FeatureKeywords)
  {
  }

  /** The first prefecture named in `text`, or "" when none is. */
  function ExtractRegionFromText(text: string): (region: string)
    ensures region == "" || (region in Prefectures && Contains(text, region))
    ensures region != "" ==> exists i :: 0 <= i < |Prefectures| && Prefectures[i] == region
                                      && forall j :: 0 <= j < i ==> !Contains(text, Prefectures[j])
    ensures (forall p :: p in Prefectures ==> !Contains(text, p)) ==> region == ""
    ensures (exists p :: p in Prefectures && Contains(text, p)) ==> region != ""
  {
    PrefecturesNotEmpty();
    FirstHitOrFound(Prefectures, text);
    FirstHitOr(Prefectures, text)
  }

  /** No prefecture name is empty. */
  lemma PrefecturesNotEmpty()
    ensures "" !in Prefectures
  {
    assert "" !in Prefectures1 && "" !in Prefectures2 && "" !in Prefectures3;
    assert "" !in Prefectures4 && "" !in Prefectures5;
  }

  /** The facility keywords found in `text`, in keyword-list order, each once. */
  function ExtractFacilitiesFromText(text: string): (facilities: seq<string>)
    ensures forall w :: w in facilities <==> w in FacilityKeywords && Contains(text, w)
    ensures IsSubsequence(facilities, FacilityKeywords)
    ensures NoDup(facilities)
  {
    VocabulariesHaveNoDuplicates();
    Hits(FacilityKeywords, text)
  }

  /** The feature keywords found in `text`, in keyword-list order, each once. */
  function ExtractFeaturesFromText(text: string): (features: seq<string>)
    ensures forall w :: w in features <==> w in FeatureKeywords && Contains(text, w)
    ensures IsSubsequence(features, FeatureKeywords)
    ensures NoDup(features)
  {
    VocabulariesHaveNoDuplicates();
    Hits(FeatureKeywords, text)
  }

  /**
   * The campsite name taken from a page title: the part before the first "|" and
   * then before the first "-", trimmed, with 公式, 予約 and サイト deleted, trimmed again.
   */
  function CleanName(title: string): (name: string)
    ensures '|' !in name && '-' !in name
    ensures forall c :: c in name ==> c in BeforeFirst(BeforeFirst(title, '|'), '-')
    ensures forall c :: c in name ==> c in title
    ensures name == [] || (!IsSpace(name[0]) && !IsSpace(name[|name| - 1]))
    ensures !Contains(Strip(BeforeFirst(BeforeFirst(title, '|'), '-')), "公式")
         && !Contains(Strip(BeforeFirst(BeforeFirst(title, '|'), '-')), "予約")
         && !Contains(Strip(BeforeFirst(BeforeFirst(title, '|'), '-')), "サイト")
         ==> name == Strip(BeforeFirst(BeforeFirst(title, '|'), '-'))
  {
    var head := Strip(BeforeFirst(BeforeFirst(title, '|'), '-'));
    StripUnpadded(head);
    Strip(RemoveAll(RemoveAll(RemoveAll(head, "公式"), "予約"), "サイト"))
  }

  /** A title without separators, outer white space or the deleted words is the name as it stands. */
  lemma CleanNameKeepsPlainTitle(title: string)
    requires '|' !in title && '-' !in title
    requires title == [] || (!IsSpace(title[0]) && !IsSpace(title[|title| - 1]))
    requires !Contains(title, "公式") && !Contains(title, "予約") && !Contains(title, "サイト")
    ensures CleanName(title) == title
  {
    StripUnpadded(title);
  }

  /** One entry of a page's `metatags` list (a missing or non-string value is ""). */
  datatype Metatag = Metatag(ogImage: string, twitterImage: string)

  /**
   * A hit's `pagemap`. `cseImage` and `cseThumbnail` hold the `src` of each listed
   * image ("" for a missing or non-string `src`); `None` is an absent key.
   */
  datatype Pagemap = Pagemap(cseImage: Option<seq<string>>, cseThumbnail: Option<seq<string>>, metatags: Option<seq<Metatag>>)

  /** One Custom Search hit. */
  datatype SearchItem = SearchItem(title: string, snippet: string, link: string, pagemap: Option<Pagemap>)

  /**
   * The image check applied to every candidate: a string starting with http:// or
   * https://. The source also asks for a non-empty, non-blank string, which such a
   * string always is (`ImageUrlIsNotBlank`).
   */
  predicate IsImageUrl(s: string) {
    StartsWith(s, "http://") || StartsWith(s, "https://")
  }

  lemma ImageUrlIsNotBlank(s: string)
    requires IsImageUrl(s)
    ensures s != "" && Strip(s) != ""
  {
    assert s[0] == 'h';
    var r := Strip(s);
    var i, j :| 0 <= i <= j <= |s| && r == s[i..j] && AllSpace(s[..i]) && AllSpace(s[j..]);
    assert !IsSpace(s[0]);
  }

  /** `pagemap[key][0]["src"]`, when the list has a first entry. */
  function FirstSrc(o: Option<seq<string>>): seq<string> {
    if o.Some? && |o.value| > 0 then [o.value[0]] else []
  }

  /** The `og:image` and `twitter:image` of each metatag, in order. */
  function MetaSrcs(tags: seq<Metatag>): seq<string>
    decreases |tags|
  {
    if tags == [] then [] else MetaSrcs(tags[..|tags| - 1]) + [tags[|tags| - 1].ogImage, tags[|tags| - 1].twitterImage]
  }

  /** Every image source the adapter looks at, in the order it looks at them. */
  function ImageCandidates(item: SearchItem): seq<string> {
    match item.pagemap
    case None => []
    case Some(pm) => FirstSrc(pm.cseImage) + FirstSrc(pm.cseThumbnail) + (if pm.metatags.Some? then MetaSrcs(pm.metatags.value) else [])
  }

  /** The images collected for a hit: the valid candidates, each once, in first-seen order. */
  function CollectedImages(item: SearchItem): (images: seq<string>)
    ensures NoDup(images)
    ensures forall x :: x in images <==> x in ImageCandidates(item) && IsImageUrl(x)
  {
    var valid := Filter(ImageCandidates(item), IsImageUrl);
    FilterMembers(ImageCandidates(item), IsImageUrl);
    AppendMissingMembers([], valid);
    assert AppendMissing([], valid)[0..] == AppendMissing([], valid);
    AppendMissing([], valid)
  }

  /** The metatag loop: each tag's og:image, then its twitter:image, appended when valid and new. */
  method AddMetatagImages(images0: seq<string>, tags: seq<Metatag>) returns (images: seq<string>)
    ensures images == AppendMissing(images0, Filter(MetaSrcs(tags), IsImageUrl))
  {
    images := images0;
    for i := 0 to |tags|
      invariant images == AppendMissing(images0, Filter(MetaSrcs(tags[..i]), IsImageUrl))
    {
      assert tags[..i + 1][..i] == tags[..i];
      var og := tags[i].ogImage;
      var tw := tags[i].twitterImage;
      assert MetaSrcs(tags[..i + 1]) == MetaSrcs(tags[..i]) + [og] + [tw];
      FilterConcat(MetaSrcs(tags[..i]) + [og], [tw], IsImageUrl);
      FilterConcat(MetaSrcs(tags[..i]), [og], IsImageUrl);
      AppendMissingConcat(images0, Filter(MetaSrcs(tags[..i]), IsImageUrl) + Filter([og], IsImageUrl), Filter([tw], IsImageUrl));
      AppendMissingConcat(images0, Filter(MetaSrcs(tags[..i]), IsImageUrl), Filter([og], IsImageUrl));
      if IsImageUrl(og) && og !in images {
        images := images + [og];
      }
      if IsImageUrl(tw) && tw !in images {
        images := images + [tw];
      }
    }
    assert tags[..|tags|] == tags;
  }

  /**
   * The image collection of `extract_campsite_data`. `imageUrl` is the `cse_image`
   * source when that one is valid, and "" otherwise.
   */
  method CollectImages(item: SearchItem) returns (imageUrl: string, images: seq<string>)
    ensures images == CollectedImages(item)
    ensures imageUrl != "" ==> images != [] && images[0] == imageUrl
  {
    imageUrl := "";
    images := [];
    if item.pagemap.Some? {
      var pm := item.pagemap.value;
      imageUrl, images := FirstImages(pm);
      var first := FirstSrc(pm.cseImage) + FirstSrc(pm.cseThumbnail);
      var rest := if pm.metatags.Some? then MetaSrcs(pm.metatags.value) else [];
      FilterConcat(first, rest, IsImageUrl);
      AppendMissingConcat([], Filter(first, IsImageUrl), Filter(rest, IsImageUrl));
      if pm.metatags.Some? {
        var before := images;
        images := AddMetatagImages(images, pm.metatags.value);
        assert images[..|before|] == before;
      } else {
        assert Filter(rest, IsImageUrl) == [];
      }
    }
  }

  /** The `cse_image` and `cse_thumbnail` steps: the first source of each, when valid and new. */
  method FirstImages(pm: Pagemap) returns (imageUrl: string, images: seq<string>)
    ensures images == AppendMissing([], Filter(FirstSrc(pm.cseImage) + FirstSrc(pm.cseThumbnail), IsImageUrl))
    ensures imageUrl != "" ==> images != [] && images[0] == imageUrl
  {
    imageUrl := "";
    images := [];
    if pm.cseImage.Some? && |pm.cseImage.value| > 0 {
      var src := pm.cseImage.value[0];
      if IsImageUrl(src) {
        imageUrl := src;
        images := images + [src];
      }
    }
    if pm.cseThumbnail.Some? && |pm.cseThumbnail.value| > 0 {
      var src := pm.cseThumbnail.value[0];
      if IsImageUrl(src) && src !in images {
        images := images + [src];
      }
    }
    FilterConcat(FirstSrc(pm.cseImage), FirstSrc(pm.cseThumbnail), IsImageUrl);
    AppendMissingConcat([], Filter(FirstSrc(pm.cseImage), IsImageUrl), Filter(FirstSrc(pm.cseThumbnail), IsImageUrl));
  }

  /** The final validation loop: the collected images that pass the image check. */
  method KeepImageUrls(images: seq<string>) returns (valid: seq<string>)
    ensures valid == Filter(images, IsImageUrl)
  {
    valid := [];
    for i := 0 to |images|
      invariant valid == Filter(images[..i], IsImageUrl)
    {
      PrefixSnoc(images, i);
      FilterConcat(images[..i], [images[i]], IsImageUrl);
      if IsImageUrl(images[i]) {
        valid := valid + [images[i]];
      }
    }
    assert images[..|images|] == images;
  }

  /** The record `extract_campsite_data` builds for a hit. */
  function WebCampsite(item: SearchItem): Campsite {
    var images := CollectedImages(item);
    Blank.(name := CleanName(item.title),
           region := ExtractRegionFromText(item.title + " " + item.snippet),
           description := item.snippet,
           facilities := ExtractFacilitiesFromText(item.snippet),
           features := ExtractFeaturesFromText(item.snippet),
           imageUrl := if images != [] then images[0] else PlaceholderImage,
           photos := Take(images, 5),
           website := item.link,
           source := Some("web_search"))
  }

  /** `extract_campsite_data`: one search hit as a campsite record tagged "web_search". */
  method ExtractCampsiteData(item: SearchItem) returns (campsite: Campsite)
    ensures campsite == WebCampsite(item)
  {
    var imageUrl, images := CollectImages(item);
    if imageUrl == "" && images != [] {
      imageUrl := images[0];
    } else if imageUrl == "" {
      imageUrl := PlaceholderImage;
    }
    var validImages := KeepImageUrls(images);
    FilterAllPass(images, IsImageUrl);
    campsite := Blank.(name := CleanName(item.title),
                       region := ExtractRegionFromText(item.title + " " + item.snippet),
                       description := item.snippet,
                       facilities := ExtractFacilitiesFromText(item.snippet),
                       features := ExtractFeaturesFromText(item.snippet),
                       imageUrl := imageUrl,
                       photos := Take(validImages, 5),
                       website := item.link,
                       source := Some("web_search"));
  }

  lemma PlaceholderIsImageUrl()
    ensures IsImageUrl(PlaceholderImage)
  {
    assert PlaceholderImage[..8] == "https://";
  }

  /** The first five of a list of distinct URLs are distinct URLs taken from it. */
  lemma FirstFiveImages(images: seq<string>)
    requires NoDup(images) && forall p :: p in images ==> IsImageUrl(p)
    ensures var photos := Take(images, 5);
      && |photos| <= 5 && NoDup(photos) && (forall p :: p in photos ==> p in images)
      && (photos != [] <==> images != []) && (photos != [] ==> photos[0] == images[0])
  {
    var photos := Take(images, 5);
    forall p | p in photos ensures p in images {
      var k :| 0 <= k < |photos| && photos[k] == p;
      assert images[k] == p;
    }
  }

  /**
   * A web record is tagged "web_search", carries no rating or address, keeps at most
   * five distinct http(s) photos taken from the hit, and its main image is the first
   * of them (the placeholder when there are none).
   */
  lemma WebCampsiteShape(item: SearchItem)
    ensures var c := WebCampsite(item);
      && c.source == Some("web_search") && c.rating == 0 && c.reviewsCount == 0 && c.address == ""
      && |c.photos| <= 5 && NoDup(c.photos)
      && (forall p :: p in c.photos ==> IsImageUrl(p) && p in ImageCandidates(item))
      && c.imageUrl == (if c.photos != [] then c.photos[0] else PlaceholderImage)
      && IsImageUrl(c.imageUrl)
  {
    var images := CollectedImages(item);
    FirstFiveImages(images);
    PlaceholderIsImageUrl();
    var c := WebCampsite(item);
    assert c.photos == Take(images, 5);
    assert c.imageUrl == if images != [] then images[0] else PlaceholderImage;
    if images != [] {
      assert images[0] in images;
    }
  }

  // ------------------------------------------------------------------
  // combine_search_results
  // ------------------------------------------------------------------

  /** Occurrences of `n` over both lists so far (the dictionary's "count"). */
  function DupCount(existing: seq<Campsite>, incoming: seq<Campsite>, n: string): nat {
    CountKey(existing, n) + CountKey(incoming, n)
  }

  /**
   * The dictionary's "popularity_score" for `n`: 3 for every new record that met an
   * earlier one, that is, every new occurrence except the one that introduced the key.
   */
  function DupPopularity(existing: seq<Campsite>, incoming: seq<Campsite>, n: string): int {
    3 * (CountKey(incoming, n) - (if HasKey(existing, n) then 0 else 1))
  }

  /** `if not target.get(key): target[key] = value` for one field with falsy value `none`. */
  function Fill<T(==)>(a: T, none: T, b: T): T {
    if a == none then b else a
  }

  function FillNumber(a: Option<int>, b: Option<int>): Option<int> {
    if b.Some? && !TruthyNumber(a) then b else a
  }

  function FillText(a: Option<string>, b: Option<string>): Option<string> {
    if b.Some? && !TruthyText(a) then b else a
  }

  function FillLocation(a: Option<LocationDict>, b: Option<LocationDict>): Option<LocationDict> {
    if b.Some? && !TruthyLocation(a) then b else a
  }

  /** The fill-in loop: every falsy field of `t` takes the value `site` has for it. */
  function FillFalsy(t: Campsite, site: Campsite): Campsite {
    Campsite(
      Fill(t.placeId, "", site.placeId), Fill(t.name, "", site.name),
      Fill(t.rating, 0, site.rating), Fill(t.reviewsCount, 0, site.reviewsCount),
      Fill(t.address, "", site.address), Fill(t.region, "", site.region),
      Fill(t.description, "", site.description), FillLocation(t.location, site.location),
      FillNumber(t.latitude, site.latitude), FillNumber(t.longitude, site.longitude),
      Fill(t.photos, [], site.photos), Fill(t.photoNames, [], site.photoNames),
      Fill(t.photoUrls, [], site.photoUrls), Fill(t.imageUrl, "", site.imageUrl),
      Fill(t.facilities, [], site.facilities), Fill(t.features, [], site.features),
      Fill(t.website, "", site.website), Fill(t.phone, "", site.phone),
      Fill(t.priceLevel, "", site.priceLevel), Fill(t.businessStatus, "", site.businessStatus),
      FillText(t.source, site.source), Fill(t.reviews, [], site.reviews),
      FillNumber(t.score, site.score), FillNumber(t.matchScore, site.matchScore),
      Fill(t.recommendationReason, "", site.recommendationReason),
      Fill(t.mismatchReason, "", site.mismatchReason),
      Fill(t.multipleSources, false, site.multipleSources),
      Fill(t.occurrenceCount, 0, site.occurrenceCount),
      Fill(t.popularityScore, 0, site.popularityScore),
      Fill(t.highlights, "", site.highlights), Fill(t.bestFor, "", site.bestFor),
      Fill(t.googleMapsUri, "", site.googleMapsUri), Fill(t.websiteUri, "", site.websiteUri),
      Fill(t.reviewSummary, "", site.reviewSummary),
      Fill(t.aiRecommendation, "", site.aiRecommendation),
      Fill(t.isFeatured, false, site.isFeatured), Fill(t.isPopular, false, site.isPopular))
  }

  /**
   * Filling in is idempotent, a site with no keys changes nothing, and a target with
   * no keys becomes the site.
   */
  lemma FillFalsyIdempotent(t: Campsite, site: Campsite)
    ensures FillFalsy(FillFalsy(t, site), site) == FillFalsy(t, site)
  {
  }

  lemma FillFalsyFromBlank(t: Campsite, site: Campsite)
    ensures FillFalsy(t, Blank) == t
    ensures FillFalsy(Blank, site) == site
  {
  }

  /**
   * What a duplicate does to the first record with its name: the duplicate markers,
   * the source tag and the fill-in.
   */
  function Absorb(t: Campsite, site: Campsite, count: int, popularity: int): (r: Campsite)
    ensures r.multipleSources
    ensures count != 0 ==> r.occurrenceCount == count
    ensures popularity != 0 ==> r.popularityScore == popularity
    ensures t.name != "" ==> r.name == t.name
    ensures r.source == match (t.source, site.source)
      case (Some(a), Some(b)) => Some(if Contains(a, b) then a else a + "," + b)
      case (None, _) => site.source
      case (_, None) => t.source
  {
    var marked := t.(multipleSources := true, occurrenceCount := count, popularityScore := popularity);
    var tagged :=
      if marked.source.Some? && site.source.Some? && !Contains(marked.source.value, site.source.value)
      then marked.(source := Some(marked.source.value + "," + site.source.value))
      else marked;
    EmptyContainsOnlyEmpty(site.source);
    FillFalsy(tagged, site)
  }

  lemma AbsorbKeepsKey(t: Campsite, site: Campsite, count: int, popularity: int)
    requires NameKey(t) != ""
    ensures NameKey(Absorb(t, site, count, popularity)) == NameKey(t)
  {
  }

  lemma EmptyContainsOnlyEmpty(o: Option<string>)
    ensures o.Some? && Contains("", o.value) ==> o.value == ""
  {
  }

  /**
   * The combined list before popularity is written back: `existing` with every new
   * record folded in, in order. A nameless record is skipped, a record whose key is
   * already present is absorbed into the first record with that key, any other is
   * appended.
   */
  function Merged(existing: seq<Campsite>, incoming: seq<Campsite>): (m: seq<Campsite>)
    ensures |existing| <= |m| <= |existing| + |incoming|
    decreases |incoming|
  {
    if |incoming| == 0 then existing
    else
      var before := Merged(existing, incoming[..|incoming|-1]);
      var site := incoming[|incoming|-1];
      var n := NameKey(site);
      if n == "" then before
      else if HasKey(before, n) then
        var i := KeyIndex(before, n);
        before[i := Absorb(before[i], site, DupCount(existing, incoming, n), DupPopularity(existing, incoming, n))]
      else before + [site]
  }

  /** The last loop: each named record gets its key's popularity score. */
  function WithPopularity(existing: seq<Campsite>, incoming: seq<Campsite>, c: Campsite): Campsite {
    if NameKey(c) != "" then c.(popularityScore := DupPopularity(existing, incoming, NameKey(c))) else c
  }

  function Finalized(existing: seq<Campsite>, incoming: seq<Campsite>): (f: seq<Campsite>) {
    var m := Merged(existing, incoming);
    seq(|m|, i requires 0 <= i < |m| => WithPopularity(existing, incoming, m[i]))
  }

  /** What `combine_search_results` returns. */
  function Combined(existing: seq<Campsite>, incoming: seq<Campsite>, maxResults: nat): seq<Campsite> {
    Take(SortDesc(Finalized(existing, incoming), PopularityOf), maxResults)
  }

  /** The dictionary entry kept per key ("source" is stored by the source but never read). */
  datatype Occurrence = Occurrence(count: nat, index: nat, popularity: int)

  /** The dictionary describes `combined`, having seen `incoming` after `existing`. */
  ghost predicate Tracks(occurrences: map<string, Occurrence>, combined: seq<Campsite>,
                         existing: seq<Campsite>, incoming: seq<Campsite>)
  {
    && (forall n :: n in occurrences <==> n != "" && HasKey(combined, n))
    && (forall n :: n in occurrences ==>
          occurrences[n] == Occurrence(DupCount(existing, incoming, n), KeyIndex(combined, n),
                                       DupPopularity(existing, incoming, n)))
  }

  /** The first loop: count the named existing records, remembering the first index of each. */
  method CountExisting(existing: seq<Campsite>) returns (occurrences: map<string, Occurrence>)
    ensures Tracks(occurrences, existing, existing, [])
  {
    occurrences := map[];
    var i := 0;
    while i < |existing|
      invariant 0 <= i <= |existing|
      invariant Tracks(occurrences, existing[..i], existing[..i], [])
    {
      var site := existing[i];
      var name := NameKey(site);
      PrefixSnoc(existing, i);
      if name == "" {
        CountStepUnnamed(occurrences, existing[..i], site);
      } else if name in occurrences {
        CountStepRepeat(occurrences, existing[..i], site);
        var o := occurrences[name];
        occurrences := occurrences[name := o.(count := o.count + 1)];
      } else {
        CountStepNew(occurrences, existing[..i], site);
        occurrences := occurrences[name := Occurrence(1, i, 0)];
      }
      i := i + 1;
    }
    assert existing[..i] == existing;
  }

  lemma CountStepUnnamed(occurrences: map<string, Occurrence>, s: seq<Campsite>, c: Campsite)
    requires Tracks(occurrences, s, s, []) && NameKey(c) == ""
    ensures Tracks(occurrences, s + [c], s + [c], [])
  {
    KeyIndexSnoc(s, c);
    CountKeySnoc(s, c);
  }

  lemma CountStepRepeat(occurrences: map<string, Occurrence>, s: seq<Campsite>, c: Campsite)
    requires Tracks(occurrences, s, s, []) && NameKey(c) in occurrences
    ensures var o := occurrences[NameKey(c)];
      Tracks(occurrences[NameKey(c) := o.(count := o.count + 1)], s + [c], s + [c], [])
  {
    KeyIndexSnoc(s, c);
    CountKeySnoc(s, c);
  }

  lemma CountStepNew(occurrences: map<string, Occurrence>, s: seq<Campsite>, c: Campsite)
    requires Tracks(occurrences, s, s, []) && NameKey(c) != "" && NameKey(c) !in occurrences
    ensures Tracks(occurrences[NameKey(c) := Occurrence(1, |s|, 0)], s + [c], s + [c], [])
  {
    KeyIndexSnoc(s, c);
    CountKeySnoc(s, c);
    CountKeyZero(s, NameKey(c));
  }

  /** The second loop: fold the new records into `combined`. */
  method MergeIncoming(existing: seq<Campsite>, incoming: seq<Campsite>, occurrences0: map<string, Occurrence>)
    returns (combined: seq<Campsite>, occurrences: map<string, Occurrence>)
    requires Tracks(occurrences0, existing, existing, [])
    ensures combined == Merged(existing, incoming)
    ensures Tracks(occurrences, combined, existing, incoming)
  {
    combined, occurrences := existing, occurrences0;
    var k := 0;
    while k < |incoming|
      invariant 0 <= k <= |incoming|
      invariant combined == Merged(existing, incoming[..k])
      invariant Tracks(occurrences, combined, existing, incoming[..k])
    {
      assert incoming[..k + 1] == incoming[..k] + [incoming[k]];
      combined, occurrences := MergeOne(existing, incoming[..k], incoming[k], combined, occurrences);
      k := k + 1;
    }
    assert incoming[..k] == incoming;
  }

  /** One pass of the second loop. */
  method MergeOne(existing: seq<Campsite>, seen: seq<Campsite>, site: Campsite,
                  combined0: seq<Campsite>, occurrences0: map<string, Occurrence>)
    returns (combined: seq<Campsite>, occurrences: map<string, Occurrence>)
    requires combined0 == Merged(existing, seen)
    requires Tracks(occurrences0, combined0, existing, seen)
    ensures combined == Merged(existing, seen + [site])
    ensures Tracks(occurrences, combined, existing, seen + [site])
  {
    combined, occurrences := combined0, occurrences0;
    var name := NameKey(site);
    if name == "" {
      MergedSkipsUnnamed(existing, seen, site);
      MergeStepUnnamed(occurrences, combined, existing, seen, site);
    } else if name in occurrences {
      DuplicateEntry(occurrences, combined, existing, seen, site);
      MergedAbsorbsDuplicate(existing, seen, site);
      var o := occurrences[name];
      var absorbed := Absorb(combined[o.index], site, o.count + 1, o.popularity + 3);
      KeyIndexFirst(combined, name);
      AbsorbKeepsKey(combined[o.index], site, o.count + 1, o.popularity + 3);
      MergeStepDuplicate(occurrences, combined, existing, seen, site, absorbed);
      occurrences := occurrences[name := Occurrence(o.count + 1, o.index, o.popularity + 3)];
      combined := combined[o.index := absorbed];
    } else {
      NewEntry(occurrences, combined, existing, seen, name);
      MergedAppendsNew(existing, seen, site);
      MergeStepNew(occurrences, combined, existing, seen, site);
      occurrences := occurrences[name := Occurrence(1, |combined|, 0)];
      combined := combined + [site];
    }
  }

  /** A new record without a name is skipped. */
  lemma MergedSkipsUnnamed(existing: seq<Campsite>, incoming: seq<Campsite>, site: Campsite)
    requires NameKey(site) == ""
    ensures Merged(existing, incoming + [site]) == Merged(existing, incoming)
  {
    assert (incoming + [site])[..|incoming|] == incoming;
  }

  /**
   * A new record whose name is already present is not appended: the first record with
   * that name absorbs it, taking the updated count and popularity, and no other record
   * changes.
   */
  lemma MergedAbsorbsDuplicate(existing: seq<Campsite>, incoming: seq<Campsite>, site: Campsite)
    requires NameKey(site) != "" && HasKey(Merged(existing, incoming), NameKey(site))
    ensures var before, n := Merged(existing, incoming), NameKey(site);
      var i := KeyIndex(before, n);
      Merged(existing, incoming + [site]) ==
        before[i := Absorb(before[i], site, DupCount(existing, incoming + [site], n),
                           DupPopularity(existing, incoming + [site], n))]
  {
    assert (incoming + [site])[..|incoming|] == incoming;
  }

  /** A new record with a name not seen before is appended unchanged. */
  lemma MergedAppendsNew(existing: seq<Campsite>, incoming: seq<Campsite>, site: Campsite)
    requires NameKey(site) != "" && !HasKey(Merged(existing, incoming), NameKey(site))
    ensures Merged(existing, incoming + [site]) == Merged(existing, incoming) + [site]
  {
    assert (incoming + [site])[..|incoming|] == incoming;
  }

  lemma MergeStepUnnamed(occurrences: map<string, Occurrence>, m: seq<Campsite>,
                         existing: seq<Campsite>, incoming: seq<Campsite>, c: Campsite)
    requires Tracks(occurrences, m, existing, incoming) && NameKey(c) == ""
    ensures Tracks(occurrences, m, existing, incoming + [c])
  {
    CountKeySnoc(incoming, c);
  }

  /** In the duplicate case the dictionary entry holds the position and the updated counts. */
  lemma DuplicateEntry(occurrences: map<string, Occurrence>, m: seq<Campsite>,
                       existing: seq<Campsite>, incoming: seq<Campsite>, c: Campsite)
    requires Tracks(occurrences, m, existing, incoming) && NameKey(c) in occurrences
    ensures var o := occurrences[NameKey(c)];
      && o.index == KeyIndex(m, NameKey(c)) < |m|
      && o.count + 1 == DupCount(existing, incoming + [c], NameKey(c))
      && o.popularity + 3 == DupPopularity(existing, incoming + [c], NameKey(c))
  {
    CountKeySnoc(incoming, c);
  }

  lemma MergeStepDuplicate(occurrences: map<string, Occurrence>, m: seq<Campsite>,
                           existing: seq<Campsite>, incoming: seq<Campsite>, c: Campsite, absorbed: Campsite)
    requires Tracks(occurrences, m, existing, incoming) && NameKey(c) in occurrences
    requires var i := occurrences[NameKey(c)].index; 0 <= i < |m| && NameKey(absorbed) == NameKey(m[i])
    ensures var n, o := NameKey(c), occurrences[NameKey(c)];
      Tracks(occurrences[n := Occurrence(o.count + 1, o.index, o.popularity + 3)],
             m[o.index := absorbed], existing, incoming + [c])
  {
    CountKeySnoc(incoming, c);
    KeyIndexUpdate(m, occurrences[NameKey(c)].index, absorbed);
  }

  /** A name the dictionary lacks occurs in neither input so far. */
  lemma NewEntry(occurrences: map<string, Occurrence>, m: seq<Campsite>,
                 existing: seq<Campsite>, incoming: seq<Campsite>, n: string)
    requires m == Merged(existing, incoming)
    requires Tracks(occurrences, m, existing, incoming) && n != "" && n !in occurrences
    ensures !HasKey(m, n) && CountKey(existing, n) == 0 && CountKey(incoming, n) == 0 && !HasKey(existing, n)
  {
    MergedKeys(existing, incoming);
    CountKeyZero(existing, n);
    CountKeyZero(incoming, n);
  }

  lemma MergeStepNew(occurrences: map<string, Occurrence>, m: seq<Campsite>,
                     existing: seq<Campsite>, incoming: seq<Campsite>, c: Campsite)
    requires Tracks(occurrences, m, existing, incoming) && NameKey(c) != "" && NameKey(c) !in occurrences
    requires CountKey(existing, NameKey(c)) == 0 && CountKey(incoming, NameKey(c)) == 0 && !HasKey(existing, NameKey(c))
    ensures Tracks(occurrences[NameKey(c) := Occurrence(1, |m|, 0)], m + [c], existing, incoming + [c])
  {
    CountKeySnoc(incoming, c);
    KeyIndexSnoc(m, c);
  }


  /** The dictionary gives `c` its key's popularity exactly when `c` is named. */
  ghost predicate PopularityEntry(occurrences: map<string, Occurrence>, existing: seq<Campsite>,
                                  incoming: seq<Campsite>, c: Campsite)
  {
    && (NameKey(c) in occurrences <==> NameKey(c) != "")
    && (NameKey(c) in occurrences ==> occurrences[NameKey(c)].popularity == DupPopularity(existing, incoming, NameKey(c)))
  }

  lemma TracksPopularity(occurrences: map<string, Occurrence>, merged: seq<Campsite>,
                         existing: seq<Campsite>, incoming: seq<Campsite>)
    requires Tracks(occurrences, merged, existing, incoming)
    ensures forall j :: 0 <= j < |merged| ==> PopularityEntry(occurrences, existing, incoming, merged[j])
  {
    forall j | 0 <= j < |merged| ensures PopularityEntry(occurrences, existing, incoming, merged[j]) {
      KeyIndexOfMember(merged, j);
    }
  }

  /** The third loop: write each key's popularity score back into its records. */
  method ApplyPopularity(existing: seq<Campsite>, incoming: seq<Campsite>, merged: seq<Campsite>,
                         occurrences: map<string, Occurrence>)
    returns (combined: seq<Campsite>)
    requires forall j :: 0 <= j < |merged| ==> PopularityEntry(occurrences, existing, incoming, merged[j])
    ensures |combined| == |merged|
    ensures forall i :: 0 <= i < |merged| ==> combined[i] == WithPopularity(existing, incoming, merged[i])
  {
    combined := merged;
    var j := 0;
    while j < |combined|
      invariant 0 <= j <= |combined| == |merged|
      invariant forall t :: 0 <= t < j ==> combined[t] == WithPopularity(existing, incoming, merged[t])
      invariant forall t :: j <= t < |combined| ==> combined[t] == merged[t]
    {
      var site := combined[j];
      var name := NameKey(site);
      if name in occurrences {
        combined := combined[j := site.(popularityScore := occurrences[name].popularity)];
      }
      j := j + 1;
    }
  }

  /**
   * `combine_search_results`: merge `incoming` into `existing` by lower-cased name,
   * score popularity, sort by it (stable, descending) and keep `maxResults`.
   */
  method CombineSearchResults(existing: seq<Campsite>, incoming: seq<Campsite>, maxResults: nat)
    returns (combined: seq<Campsite>)
    ensures combined == Combined(existing, incoming, maxResults)
  {
    var occurrences := CountExisting(existing);
    var merged;
    merged, occurrences := MergeIncoming(existing, incoming, occurrences);
    TracksPopularity(occurrences, merged, existing, incoming);
    combined := ApplyPopularity(existing, incoming, merged, occurrences);
    assert combined == Finalized(existing, incoming);
    combined := SortDesc(combined, PopularityOf);
    combined := Take(combined, maxResults);
  }

  /** Every key in the merged list comes from one of the inputs, and every named input key is in it. */
  lemma {:induction false} MergedKeys(existing: seq<Campsite>, incoming: seq<Campsite>)
    ensures forall n :: n != "" ==>
      (HasKey(Merged(existing, incoming), n) <==> HasKey(existing, n) || HasKey(incoming, n))
    decreases |incoming|
  {
    if |incoming| > 0 {
      var init, site := incoming[..|incoming|-1], incoming[|incoming|-1];
      InitLast(incoming);
      MergedKeys(existing, init);
      KeyIndexSnoc(init, site);
      var before, k := Merged(existing, init), NameKey(site);
      if k == "" {
        MergedSkipsUnnamed(existing, init, site);
      } else if HasKey(before, k) {
        MergedAbsorbsDuplicate(existing, init, site);
        var i := KeyIndex(before, k);
        var absorbed := Absorb(before[i], site, DupCount(existing, incoming, k), DupPopularity(existing, incoming, k));
        KeyIndexFirst(before, k);
        AbsorbKeepsKey(before[i], site, DupCount(existing, incoming, k), DupPopularity(existing, incoming, k));
        KeyIndexUpdate(before, i, absorbed);
      } else {
        MergedAppendsNew(existing, init, site);
        KeyIndexSnoc(before, site);
      }
    }
  }

  /** Absorbing keeps every record's key, so first positions are unchanged. */
  lemma AbsorbStepKeys(before: seq<Campsite>, existing: seq<Campsite>, incoming: seq<Campsite>, site: Campsite)
    requires NameKey(site) != "" && HasKey(before, NameKey(site))
    ensures var i, n := KeyIndex(before, NameKey(site)), NameKey(site);
      var after := before[i := Absorb(before[i], site, DupCount(existing, incoming, n), DupPopularity(existing, incoming, n))];
      && i < |before| && NameKey(before[i]) == n
      && after[i].name == before[i].name
      && (forall j :: 0 <= j < |before| ==> NameKey(after[j]) == NameKey(before[j]))
      && (forall m :: KeyIndex(after, m) == KeyIndex(before, m))
  {
    var i, n := KeyIndex(before, NameKey(site)), NameKey(site);
    KeyIndexFirst(before, n);
    var a := Absorb(before[i], site, DupCount(existing, incoming, n), DupPopularity(existing, incoming, n));
    AbsorbKeepsKey(before[i], site, DupCount(existing, incoming, n), DupPopularity(existing, incoming, n));
    KeyIndexUpdate(before, i, a);
  }

  /**
   * The merged list starts with the existing records, under their own names; every
   * record after them is named, is the first record with its key, and has a key no
   * existing record has.
   */
  lemma MergedShape(existing: seq<Campsite>, incoming: seq<Campsite>)
    ensures var m := Merged(existing, incoming);
      && (forall j :: 0 <= j < |existing| ==> m[j].name == existing[j].name)
      && (forall j :: |existing| <= j < |m| ==> NameKey(m[j]) != "" && IsFirstKey(m, NameKey(m[j]), j))
      && (forall j :: |existing| <= j < |m| ==> !HasKey(existing, NameKey(m[j])))
  {
    MergedKeepsNames(existing, incoming);
    MergedAddsNewKeys(existing, incoming);
  }

  lemma {:induction false} MergedKeepsNames(existing: seq<Campsite>, incoming: seq<Campsite>)
    ensures var m := Merged(existing, incoming);
      forall j :: 0 <= j < |existing| ==> m[j].name == existing[j].name
    decreases |incoming|
  {
    if |incoming| > 0 {
      var init, site := incoming[..|incoming|-1], incoming[|incoming|-1];
      InitLast(incoming);
      MergedKeepsNames(existing, init);
      var before, k := Merged(existing, init), NameKey(site);
      if k == "" {
        MergedSkipsUnnamed(existing, init, site);
      } else if HasKey(before, k) {
        MergedAbsorbsDuplicate(existing, init, site);
        AbsorbStepKeys(before, existing, incoming, site);
      } else {
        MergedAppendsNew(existing, init, site);
      }
    }
  }

  lemma MergedAddsNewKeys(existing: seq<Campsite>, incoming: seq<Campsite>)
    ensures var m := Merged(existing, incoming);
      && (forall j :: |existing| <= j < |m| ==> NameKey(m[j]) != "" && IsFirstKey(m, NameKey(m[j]), j))
      && (forall j :: |existing| <= j < |m| ==> !HasKey(existing, NameKey(m[j])))
  {
    MergedAddsFirstKeys(existing, incoming);
    MergedAddsUnseenKeys(existing, incoming);
  }

  lemma {:induction false} MergedAddsFirstKeys(existing: seq<Campsite>, incoming: seq<Campsite>)
    ensures var m := Merged(existing, incoming);
      forall j :: |existing| <= j < |m| ==> NameKey(m[j]) != "" && IsFirstKey(m, NameKey(m[j]), j)
    decreases |incoming|
  {
    if |incoming| > 0 {
      var init, site := incoming[..|incoming|-1], incoming[|incoming|-1];
      InitLast(incoming);
      MergedAddsFirstKeys(existing, init);
      var before, k := Merged(existing, init), NameKey(site);
      if k == "" {
        MergedSkipsUnnamed(existing, init, site);
      } else if HasKey(before, k) {
        MergedAbsorbsDuplicate(existing, init, site);
        AbsorbStepKeys(before, existing, incoming, site);
      } else {
        MergedAppendsNew(existing, init, site);
        KeyIndexFirst(before, k);
      }
    }
  }

  lemma {:induction false} MergedAddsUnseenKeys(existing: seq<Campsite>, incoming: seq<Campsite>)
    ensures var m := Merged(existing, incoming);
      forall j :: |existing| <= j < |m| ==> !HasKey(existing, NameKey(m[j]))
    decreases |incoming|
  {
    if |incoming| > 0 {
      var init, site := incoming[..|incoming|-1], incoming[|incoming|-1];
      InitLast(incoming);
      MergedAddsUnseenKeys(existing, init);
      MergedKeys(existing, init);
      var before, k := Merged(existing, init), NameKey(site);
      if k == "" {
        MergedSkipsUnnamed(existing, init, site);
      } else if HasKey(before, k) {
        MergedAbsorbsDuplicate(existing, init, site);
        AbsorbStepKeys(before, existing, incoming, site);
      } else {
        MergedAppendsNew(existing, init, site);
      }
    }
  }



  /**
   * A key that met at least one duplicate among the new records (one beyond the record
   * that introduced it, when no existing record had it): its first record is marked as
   * coming from several sources, with the total occurrence count and 3 per duplicate.
   */
  lemma {:induction false} DuplicateHolder(existing: seq<Campsite>, incoming: seq<Campsite>, n: string)
    requires n != "" && CountKey(incoming, n) > (if HasKey(existing, n) then 0 else 1)
    ensures var m := Merged(existing, incoming);
      var i := KeyIndex(m, n);
      && i < |m| && NameKey(m[i]) == n
      && m[i].multipleSources
      && m[i].occurrenceCount == DupCount(existing, incoming, n)
      && m[i].popularityScore == DupPopularity(existing, incoming, n)
    decreases |incoming|
  {
    var init, site := incoming[..|incoming|-1], incoming[|incoming|-1];
    InitLast(incoming);
    CountKeySnoc(init, site);
    var before, k := Merged(existing, init), NameKey(site);
    if k == "" {
      MergedSkipsUnnamed(existing, init, site);
      DuplicateHolder(existing, init, n);
    } else if HasKey(before, k) {
      MergedAbsorbsDuplicate(existing, init, site);
      AbsorbStepKeys(before, existing, incoming, site);
      if k != n {
        DuplicateHolder(existing, init, n);
      }
    } else if k == n {
      MergedKeys(existing, init);
      CountKeyZero(init, n);
      assert false;
    } else {
      MergedAppendsNew(existing, init, site);
      KeyIndexSnoc(before, site);
      DuplicateHolder(existing, init, n);
    }
  }

  /**
   * The result holds at most `maxResults` records, drawn from the finalized list and
   * ordered by descending popularity; records of equal popularity keep their order in
   * the finalized list.
   */
  lemma CombinedShape(existing: seq<Campsite>, incoming: seq<Campsite>, maxResults: nat)
    ensures var r, f := Combined(existing, incoming, maxResults), Finalized(existing, incoming);
      && |r| == (if maxResults < |f| then maxResults else |f|)
      && SortedDesc(r, PopularityOf)
      && multiset(r) <= multiset(f)
      && (forall p :: WithKey(SortDesc(f, PopularityOf), PopularityOf, p) == WithKey(f, PopularityOf, p))
  {
    var f := Finalized(existing, incoming);
    var sorted := SortDesc(f, PopularityOf);
    PrefixOfSorted(sorted, PopularityOf, |Take(sorted, maxResults)|);
    forall p ensures WithKey(sorted, PopularityOf, p) == WithKey(f, PopularityOf, p) {
      SortDescStable(f, PopularityOf, p);
    }
  }

  /**
   * Combining with no new records resets every named record's popularity to 0; when
   * all popularity scores already are 0, the result is the first `maxResults` existing
   * records in their own order.
   */
  lemma CombineWithNothing(existing: seq<Campsite>, maxResults: nat)
    ensures forall j :: 0 <= j < |existing| && NameKey(existing[j]) != "" ==>
      Finalized(existing, [])[j] == existing[j].(popularityScore := 0)
    ensures (forall j :: 0 <= j < |existing| ==> existing[j].popularityScore == 0) ==>
      Combined(existing, [], maxResults) == Take(existing, maxResults)
  {
    var f := Finalized(existing, []);
    forall j | 0 <= j < |existing|
      ensures NameKey(existing[j]) != "" ==> f[j] == existing[j].(popularityScore := 0)
    {
      KeyIndexOfMember(existing, j);
    }
    if forall j :: 0 <= j < |existing| ==> existing[j].popularityScore == 0 {
      assert f == existing;
      SortDescOfEqualKeys(existing, PopularityOf, 0);
    }
  }

  /** So combining is not idempotent: a record made popular by duplicates loses its score. */
  lemma CombineResetsPopularity()
    ensures var popular := Blank.(name := "x", popularityScore := 3);
      Combined([popular], [], 1) == [popular.(popularityScore := 0)]
  {
    var popular := Blank.(name := "x", popularityScore := 3);
    CombineWithNothing([popular], 1);
    assert NameKey(popular) == "x";
  }
}
