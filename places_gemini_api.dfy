/**
 * The Places-plus-Gemini search (`utils/places_gemini_api.py`): Places results topped up
 * from the Gemini search when there are fewer than three, without repeating a name and
 * up to ten records, then sorted by rating; the price-level text, the case-blind
 * feature extractor and the older photo-URL builder. The Gemini search's answer is a
 * parameter, and the API keys are parameters with "" for an unset key.
 */
module PlacesGeminiApi {
  import opened Wrappers
  import opened Text
  import opened Ordering
  import opened Records
  import opened PlacesApiNew

  /** Backfill is tried below this many Places results. */
  const BackfillBelow: nat := 3
  /** Backfill stops once the list holds this many records. */
  const BackfillCap: nat := 10

  // ------------------------------------------------------------------
  // The backfill merge of search_campsites_places_gemini
  // ------------------------------------------------------------------

  /**
   * The loop over the Gemini records: a record whose lower-cased name is not yet in
   * `names` is appended (and its name recorded), and the loop breaks as soon as an
   * append brings the list to the cap.
   */
  function Backfill(results: seq<Campsite>, names: seq<string>, gemini: seq<Campsite>): (r: seq<Campsite>)
    ensures |results| <= |r| && r[..|results|] == results
    decreases |gemini|
  {
    if gemini == [] then results
    else if NameKey(gemini[0]) in names then Backfill(results, names, gemini[1..])
    else if |results| + 1 >= BackfillCap then results + [gemini[0]]
    else
      var r := Backfill(results + [gemini[0]], names + [NameKey(gemini[0])], gemini[1..]);
      assert r[..|results|] == (results + [gemini[0]])[..|results|];
      r
  }

  /** Starting below the cap, the backfill never goes past it. */
  lemma {:induction false} BackfillCapped(results: seq<Campsite>, names: seq<string>, gemini: seq<Campsite>)
    requires |results| < BackfillCap
    ensures |Backfill(results, names, gemini)| <= BackfillCap
    decreases |gemini|
  {
    if gemini != [] {
      if NameKey(gemini[0]) in names {
        BackfillCapped(results, names, gemini[1..]);
      } else if |results| + 1 < BackfillCap {
        BackfillCapped(results + [gemini[0]], names + [NameKey(gemini[0])], gemini[1..]);
      }
    }
  }

  /** No appended record has a name already recorded. */
  lemma {:induction false} BackfillUnseen(results: seq<Campsite>, names: seq<string>, gemini: seq<Campsite>)
    ensures var r := Backfill(results, names, gemini);
      forall j :: |results| <= j < |r| ==> NameKey(r[j]) !in names
    decreases |gemini|
  {
    if gemini != [] {
      var g := gemini[0];
      var r := Backfill(results, names, gemini);
      if NameKey(g) in names {
        assert r == Backfill(results, names, gemini[1..]);
        BackfillUnseen(results, names, gemini[1..]);
      } else if |results| + 1 < BackfillCap {
        assert r == Backfill(results + [g], names + [NameKey(g)], gemini[1..]);
        BackfillUnseen(results + [g], names + [NameKey(g)], gemini[1..]);
        assert r[|results|] == g by {
          assert r[..|results| + 1] == results + [g];
        }
      }
    }
  }

  /** No two appended records share a lower-cased name. */
  lemma {:induction false} BackfillDistinct(results: seq<Campsite>, names: seq<string>, gemini: seq<Campsite>)
    ensures forall i, j :: |results| <= i < j < |Backfill(results, names, gemini)| ==>
      NameKey(Backfill(results, names, gemini)[i]) != NameKey(Backfill(results, names, gemini)[j])
    decreases |gemini|
  {
    if gemini != [] {
      var g := gemini[0];
      var r := Backfill(results, names, gemini);
      if NameKey(g) in names {
        assert r == Backfill(results, names, gemini[1..]);
        BackfillDistinct(results, names, gemini[1..]);
      } else if |results| + 1 < BackfillCap {
        var results', names' := results + [g], names + [NameKey(g)];
        assert r == Backfill(results', names', gemini[1..]);
        BackfillDistinct(results', names', gemini[1..]);
        BackfillUnseen(results', names', gemini[1..]);
        assert r[|results|] == g by {
          assert r[..|results| + 1] == results';
        }
        forall i, j | |results| <= i < j < |r| ensures NameKey(r[i]) != NameKey(r[j]) {
          if i == |results| {
            assert NameKey(r[j]) !in names';
          }
        }
      }
    }
  }

  /** The appended records are Gemini records, in the Gemini order. */
  lemma {:induction false} BackfillFromGemini(results: seq<Campsite>, names: seq<string>, gemini: seq<Campsite>)
    ensures var r := Backfill(results, names, gemini);
      IsSubsequence(r[|results|..], gemini)
    decreases |gemini|
  {
    if gemini != [] {
      var g := gemini[0];
      var r := Backfill(results, names, gemini);
      if NameKey(g) in names {
        BackfillFromGemini(results, names, gemini[1..]);
        SubsequenceSkip(r[|results|..], gemini);
      } else if |results| + 1 >= BackfillCap {
        assert r[|results|..] == [g];
        assert IsSubsequence(r[|results|..][1..], gemini[1..]);
      } else {
        var results' := results + [g];
        BackfillFromGemini(results', names + [NameKey(g)], gemini[1..]);
        assert r[..|results'|] == results';
        assert r[|results|..][0] == g;
        assert r[|results|..][1..] == r[|results'|..];
      }
    }
  }

  /**
   * Short of the cap, no Gemini record was passed over for any reason but its name:
   * every Gemini name is recorded or carried by an appended record.
   */
  lemma {:induction false} BackfillComplete(results: seq<Campsite>, names: seq<string>, gemini: seq<Campsite>)
    requires |Backfill(results, names, gemini)| < BackfillCap
    ensures var r := Backfill(results, names, gemini);
      forall i :: 0 <= i < |gemini| ==>
        NameKey(gemini[i]) in names || exists j :: |results| <= j < |r| && NameKey(r[j]) == NameKey(gemini[i])
    decreases |gemini|
  {
    if gemini != [] {
      var g := gemini[0];
      var r := Backfill(results, names, gemini);
      if NameKey(g) in names {
        assert r == Backfill(results, names, gemini[1..]);
        BackfillComplete(results, names, gemini[1..]);
        forall i | 0 <= i < |gemini|
          ensures NameKey(gemini[i]) in names || exists j :: |results| <= j < |r| && NameKey(r[j]) == NameKey(gemini[i])
        {
          if i > 0 {
            assert gemini[i] == gemini[1..][i - 1];
          }
        }
      } else {
        assert |results| + 1 < BackfillCap;
        var results', names' := results + [g], names + [NameKey(g)];
        assert r == Backfill(results', names', gemini[1..]);
        BackfillComplete(results', names', gemini[1..]);
        assert r[..|results'|] == results';
        assert r[|results|] == g;
        forall i | 0 <= i < |gemini|
          ensures NameKey(gemini[i]) in names || exists j :: |results| <= j < |r| && NameKey(r[j]) == NameKey(gemini[i])
        {
          if i == 0 || NameKey(gemini[i]) == NameKey(g) {
            assert NameKey(r[|results|]) == NameKey(gemini[i]);
          } else {
            assert gemini[i] == gemini[1..][i - 1];
          }
        }
      }
    }
  }

  /** The lower-cased names of the Places results, the loop's `existing_names`. */
  function NameKeys(sites: seq<Campsite>): (keys: seq<string>)
    ensures |keys| == |sites|
  {
    MapSeq(sites, NameKey)
  }

  /** The list before sorting: backfilled only when Places gave fewer than three. */
  function Merged(places: seq<Campsite>, gemini: seq<Campsite>): seq<Campsite> {
    if |places| < BackfillBelow then Backfill(places, NameKeys(places), gemini) else places
  }

  /** The result of `search_campsites_places_gemini` before the Gemini enhancement. */
  function PlacesGemini(places: seq<Campsite>, gemini: seq<Campsite>): seq<Campsite> {
    SortDesc(Merged(places, gemini), RatingOf)
  }

  /**
   * `search_campsites_places_gemini`: the Places response and details lookup feed the
   * converter, and `gemini` is what the Gemini search returned.
   */
  method SearchCampsitesPlacesGemini(placesData: PlacesData, details: string -> Option<Details>,
                                     gemini: seq<Campsite>)
    returns (results: seq<Campsite>)
    ensures results == PlacesGemini(Converted(placesData, details), gemini)
  {
    var places := ConvertPlacesToAppFormat(placesData, details);
    results := places;
    if |results| < BackfillBelow {
      results := BackfillGemini(places, gemini);
    }
    results := SortDesc(results, RatingOf);
  }

  /** The backfill loop itself, with its early `break`. */
  method BackfillGemini(places: seq<Campsite>, gemini: seq<Campsite>) returns (results: seq<Campsite>)
    requires |places| < BackfillCap
    ensures results == Backfill(places, NameKeys(places), gemini)
  {
    ghost var target := Backfill(places, NameKeys(places), gemini);
    results := places;
    var existingNames := NameKeys(places);
    var k := 0;
    while k < |gemini|
      invariant 0 <= k <= |gemini|
      invariant |results| < BackfillCap
      invariant Backfill(results, existingNames, gemini[k..]) == target
    {
      var site := gemini[k];
      assert gemini[k..][1..] == gemini[k + 1..];
      if NameKey(site) !in existingNames {
        results := results + [site];
        existingNames := existingNames + [NameKey(site)];
        if |results| >= BackfillCap {
          break;
        }
      }
      k := k + 1;
    }
  }

  /**
   * With fewer than three Places results, the Places records come first and unchanged;
   * the list holds at most ten; each added record is a Gemini record, in Gemini order,
   * whose name matches no Places record and no other added record.
   */
  lemma BackfillShape(places: seq<Campsite>, gemini: seq<Campsite>)
    requires |places| < BackfillBelow
    ensures var r := Merged(places, gemini);
      && r[..|places|] == places
      && |r| <= BackfillCap
      && IsSubsequence(r[|places|..], gemini)
      && (forall i, j :: |places| <= i < j < |r| ==> NameKey(r[i]) != NameKey(r[j]))
      && (forall i, j :: 0 <= i < |places| <= j < |r| ==> NameKey(r[j]) != NameKey(places[i]))
  {
    var names := NameKeys(places);
    BackfillCapped(places, names, gemini);
    BackfillFromGemini(places, names, gemini);
    BackfillDistinct(places, names, gemini);
    BackfillUnseen(places, names, gemini);
    MapSeqAt(places, NameKey);
  }

  /**
   * Short of ten records, every Gemini name is the name of some record of the merged list:
   * nothing was dropped except repeats.
   */
  lemma BackfillKeepsEveryName(places: seq<Campsite>, gemini: seq<Campsite>)
    requires |places| < BackfillBelow && |Merged(places, gemini)| < BackfillCap
    ensures var r := Merged(places, gemini);
      forall i :: 0 <= i < |gemini| ==> exists j :: 0 <= j < |r| && NameKey(r[j]) == NameKey(gemini[i])
  {
    var names := NameKeys(places);
    var r := Merged(places, gemini);
    BackfillComplete(places, names, gemini);
    MapSeqAt(places, NameKey);
    forall i | 0 <= i < |gemini| ensures exists j :: 0 <= j < |r| && NameKey(r[j]) == NameKey(gemini[i]) {
      if NameKey(gemini[i]) in names {
        var p :| 0 <= p < |names| && names[p] == NameKey(gemini[i]);
        assert r[p] == places[p];
      }
    }
  }

  /**
   * The result is in descending rating order and is a rearrangement of the merged list;
   * with three or more Places results it is a rearrangement of those alone.
   */
  lemma PlacesGeminiShape(places: seq<Campsite>, gemini: seq<Campsite>)
    ensures var r := PlacesGemini(places, gemini);
      && SortedDesc(r, RatingOf)
      && multiset(r) == multiset(Merged(places, gemini))
      && (|places| >= BackfillBelow ==> multiset(r) == multiset(places))
  {
  }

  // ------------------------------------------------------------------
  // get_price_level_text
  // ------------------------------------------------------------------

  const NoPriceInfo: string := "料金情報なし"

  const PriceMap: map<string, string> := map[
    "PRICE_LEVEL_FREE" := "無料",
    "PRICE_LEVEL_INEXPENSIVE" := "1,000円〜3,000円",
    "PRICE_LEVEL_MODERATE" := "3,000円〜6,000円",
    "PRICE_LEVEL_EXPENSIVE" := "6,000円〜10,000円",
    "PRICE_LEVEL_VERY_EXPENSIVE" := "10,000円〜"
  ]

  /** `price_map.get(price_level, "料金情報なし")`. */
  function GetPriceLevelText(priceLevel: string): (text: string)
    ensures priceLevel in PriceMap ==> text == PriceMap[priceLevel]
    ensures priceLevel !in PriceMap ==> text == NoPriceInfo
  {
    if priceLevel in PriceMap then PriceMap[priceLevel] else NoPriceInfo
  }

  /**
   * The fallback text is given exactly for the codes outside the five, and the five
   * codes get five different texts.
   */
  lemma PriceLevelTextExact(a: string, b: string)
    ensures GetPriceLevelText(a) == NoPriceInfo <==> a !in PriceMap
    ensures a in PriceMap && b in PriceMap && a != b ==> GetPriceLevelText(a) != GetPriceLevelText(b)
  {
  }

  // ------------------------------------------------------------------
  // extract_features_from_description
  // ------------------------------------------------------------------

  /** The keyword list, written in three parts of twelve. */
  const FeatureKeywords: seq<string> := SiteKeywords + ServiceKeywords + SceneryKeywords

  const SiteKeywords: seq<string> := [
    "オートキャンプ", "グランピング", "コテージ", "バンガロー", "テントサイト", "フリーサイト",
    "区画サイト", "温泉", "露天風呂", "シャワー", "トイレ", "電源"]

  const ServiceKeywords: seq<string> := [
    "Wi-Fi", "ペット", "釣り", "川遊び", "海水浴", "BBQ", "バーベキュー", "焚き火", "薪", "売店",
    "レストラン", "カフェ"]

  const SceneryKeywords: seq<string> := [
    "遊具", "アスレチック", "富士山", "山", "湖", "海", "川", "森", "高規格", "手ぶら",
    "初心者向け", "ファミリー"]

  /** The keywords whose lower-cased form occurs in the lower-cased text, in keyword order. */
  function CaselessHits(vocab: seq<string>, text: string): seq<string> {
    Filter(vocab, w => Contains(Lower(text), Lower(w)))
  }

  /**
   * The hits are exactly the keywords found regardless of case, in keyword order, and
   * a keyword list without repeats gives hits without repeats.
   */
  lemma CaselessHitsShape(vocab: seq<string>, text: string)
    ensures forall w :: w in CaselessHits(vocab, text) <==> w in vocab && Contains(Lower(text), Lower(w))
    ensures IsSubsequence(CaselessHits(vocab, text), vocab)
    ensures NoDup(vocab) ==> NoDup(CaselessHits(vocab, text))
  {
    FilterMembers(vocab, w => Contains(Lower(text), Lower(w)));
    FilterIsSubsequence(vocab, w => Contains(Lower(text), Lower(w)));
    FilterNoDup(vocab, w => Contains(Lower(text), Lower(w)));
  }

  /** `extract_features_from_description`: the first five case-blind keyword hits. */
  function ExtractFeaturesFromDescription(description: string): (features: seq<string>)
    ensures |features| <= 5
  {
    Take(CaselessHits(FeatureKeywords, description), 5)
  }

  /**
   * The features are keywords found in the text regardless of case, in keyword order,
   * at most five; they are the first five hits (all of them when fewer), so below five
   * every keyword found is among them.
   */
  lemma ExtractedFeaturesShape(description: string)
    ensures var r := ExtractFeaturesFromDescription(description);
      && IsSubsequence(r, FeatureKeywords)
      && (forall w :: w in r ==> w in FeatureKeywords && Contains(Lower(description), Lower(w)))
      && (|r| < 5 ==> forall w :: w in FeatureKeywords && Contains(Lower(description), Lower(w)) ==> w in r)
    ensures var hits := CaselessHits(FeatureKeywords, description);
      var r := ExtractFeaturesFromDescription(description);
      && |r| == (if 5 < |hits| then 5 else |hits|)
      && r == hits[..|r|]
  {
    CaselessTopShape(FeatureKeywords, description, 5);
  }

  /** The first `n` case-blind hits: found keywords, and all of them when fewer than `n`. */
  lemma CaselessTopShape(vocab: seq<string>, text: string, n: nat)
    ensures var r := Take(CaselessHits(vocab, text), n);
      && IsSubsequence(r, vocab)
      && (forall w :: w in r ==> w in vocab && Contains(Lower(text), Lower(w)))
      && (|r| < n ==> forall w :: w in vocab && Contains(Lower(text), Lower(w)) ==> w in r)
  {
    CaselessHitsShape(vocab, text);
    var all := CaselessHits(vocab, text);
    assert forall w :: w in Take(all, n) ==> w in all;
    SubsequencePrefix(all, vocab, |Take(all, n)|);
  }

  /** Lower-casing the text first changes nothing: the match is blind to case. */
  lemma {:induction false} CaselessHitsIgnoreCase(vocab: seq<string>, text: string)
    ensures CaselessHits(vocab, Lower(text)) == CaselessHits(vocab, text)
    decreases |vocab|
  {
    if vocab != [] {
      CaselessHitsIgnoreCase(vocab[1..], text);
      LowerIdempotent(text);
    }
  }

  // ------------------------------------------------------------------
  // get_place_photo
  // ------------------------------------------------------------------

  const PhotoBase: string := "https://places.googleapis.com/v1/"

  /** The part of the media URL after the reference: the width and the key. */
  function PhotoQuery(maxWidth: int, apiKey: string): string {
    "/media?maxWidthPx=" + IntToString(maxWidth) + "&key=" + apiKey
  }

  /** The media-URL template with the reference, width and key inserted. */
  function PhotoUrl(photoReference: string, maxWidth: int, apiKey: string): string {
    PhotoBase + photoReference + PhotoQuery(maxWidth, apiKey)
  }

  /** `get_place_photo`: no URL without a key or a reference. */
  function GetPlacePhoto(photoReference: string, maxWidth: int, apiKey: string): (url: Option<string>)
    ensures url.None? <==> apiKey == "" || photoReference == ""
    ensures url.Some? ==> StartsWith(url.value, PhotoBase + photoReference)
  {
    if apiKey == "" || photoReference == "" then None else Some(PhotoUrl(photoReference, maxWidth, apiKey))
  }

  /** For one key and width, different references give different URLs. */
  lemma GetPlacePhotoInjective(ref1: string, ref2: string, maxWidth: int, apiKey: string)
    requires GetPlacePhoto(ref1, maxWidth, apiKey).Some? && GetPlacePhoto(ref1, maxWidth, apiKey) == GetPlacePhoto(ref2, maxWidth, apiKey)
    ensures ref1 == ref2
  {
    SameFrame(PhotoBase, ref1, ref2, PhotoQuery(maxWidth, apiKey));
  }
}
