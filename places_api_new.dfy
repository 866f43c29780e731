/**
 * The Places API (New) adapter (`utils/places_api_new.py`): the photo-URL cache, the
 * conversion of a search response into campsite records, the payment and parking
 * option lists and the opening-hours reshaping. The HTTP calls are parameters: the
 * details lookup is a function from place id to the details dictionary, and the HEAD
 * request of the photo lookup is an outcome passed in.
 */
module PlacesApiNew {
  import opened Wrappers
  import opened Text
  import opened Records

  // ------------------------------------------------------------------
  // The photo-URL cache
  // ------------------------------------------------------------------

  /** What the HEAD request (following redirects) did. */
  datatype HeadOutcome = Status(code: int, finalUrl: string) | Raised

  /** The media URL built for a photo name; `apiKey` is the configured key. */
  function MediaUrl(photoName: string, apiKey: string): (url: string)
    ensures StartsWith(url, "https://places.googleapis.com/v1/" + photoName + "/media?key=")
  {
    "https://places.googleapis.com/v1/" + photoName + "/media?key=" + apiKey + "&maxHeightPx=800&maxWidthPx=800"
  }

  /** The module-level `photo_cache` and `get_place_photo_new`. */
  class PhotoCache {
    var cache: map<string, string>

    constructor()
      ensures cache == map[]
    {
      cache := map[];
    }

    /**
     * A cached name is answered from the cache. Otherwise, with no key there is no URL;
     * a 200 answer caches and returns the final URL; another status returns the built
     * URL without caching it; a failed request caches and returns the built URL.
     * Entries are only ever added, never changed.
     */
    method GetPlacePhoto(photoName: string, apiKey: string, head: HeadOutcome) returns (url: Option<string>)
      modifies this
      ensures photoName in old(cache) ==> url == Some(old(cache)[photoName]) && cache == old(cache)
      ensures photoName !in old(cache) && apiKey == "" ==> url == None && cache == old(cache)
      ensures photoName !in old(cache) && apiKey != "" && head.Status? && head.code == 200 ==>
        url == Some(head.finalUrl) && cache == old(cache)[photoName := head.finalUrl]
      ensures photoName !in old(cache) && apiKey != "" && head.Status? && head.code != 200 ==>
        url == Some(MediaUrl(photoName, apiKey)) && cache == old(cache)
      ensures photoName !in old(cache) && apiKey != "" && head.Raised? ==>
        url == Some(MediaUrl(photoName, apiKey)) && cache == old(cache)[photoName := MediaUrl(photoName, apiKey)]
      ensures forall n :: n in old(cache) ==> n in cache && cache[n] == old(cache)[n]
      ensures url.Some? ==> photoName in cache ==> cache[photoName] == url.value
    {
      if photoName in cache {
        return Some(cache[photoName]);
      }
      if apiKey == "" {
        return None;
      }
      var photoUrl := MediaUrl(photoName, apiKey);
      match head
      case Status(code, finalUrl) =>
        if code == 200 {
          cache := cache[photoName := finalUrl];
          return Some(finalUrl);
        } else {
          return Some(photoUrl);
        }
      case Raised =>
        cache := cache[photoName := photoUrl];
        return Some(photoUrl);
    }
  }

  // ------------------------------------------------------------------
  // Search response -> campsite records
  // ------------------------------------------------------------------

  /** One entry of the response's `places` list; `displayName` is its `text`. */
  datatype Place = Place(
    id: Option<string>,
    displayName: Option<string>,
    rating: Option<int>,
    userRatingCount: Option<int>,
    formattedAddress: Option<string>,
    location: Option<LocationDict>,
    priceLevel: Option<string>,
    businessStatus: Option<string>)

  /** The search response: a dictionary (with or without `error` and `places`), or anything else. */
  datatype PlacesData = NotADict | Dict(hasError: bool, places: Option<seq<Place>>)

  datatype AboutThisPlace = AboutThisPlace(highlights: Option<seq<string>>, summary: Option<string>)

  /** One entry of the details' `reviews`; `text` is the nested `text.text`, `author` the attribution's name. */
  datatype RawReview = RawReview(rating: Option<int>, text: Option<string>, publishTime: Option<string>, author: Option<string>)

  /** The details dictionary; each photo entry is represented by its `name` key. */
  datatype Details = Details(
    rating: Option<int>,
    userRatingCount: Option<int>,
    formattedAddress: Option<string>,
    location: Option<LocationDict>,
    amenities: Option<seq<string>>,
    aboutThisPlace: Option<AboutThisPlace>,
    photos: Option<seq<Option<string>>>,
    websiteUri: Option<string>,
    internationalPhoneNumber: Option<string>,
    priceLevel: Option<string>,
    businessStatus: Option<string>,
    reviews: Option<seq<RawReview>>)

  const EmptyDetails := Details(None, None, None, None, None, None, None, None, None, None, None, None)

  /** `if not details`: a missing lookup result or an empty dictionary. */
  predicate TruthyDetails(d: Option<Details>) {
    d.Some? && d.value != EmptyDetails
  }

  /** The places the converter walks: none unless the response is a dictionary without `error`. */
  function PlacesOf(data: PlacesData): seq<Place> {
    if data.Dict? && !data.hasError && data.places.Some? then data.places.value else []
  }

  predicate Named(p: Place) {
    p.displayName.GetOr("") != ""
  }

  /** The names kept from photo entries: missing and empty names are skipped. */
  function TruthyNames(refs: seq<Option<string>>): (names: seq<string>)
    ensures |names| <= |refs|
  {
    if refs == [] then []
    else TruthyNames(refs[..|refs| - 1]) + (if TruthyText(refs[|refs| - 1]) then [refs[|refs| - 1].value] else [])
  }

  /** The photo names stored for a place: the truthy names among the first six entries. */
  function PhotoNames(refs: seq<Option<string>>): seq<string> {
    TruthyNames(Take(refs, 6))
  }

  /** A kept name is a truthy entry of the list, and every truthy entry is kept. */
  lemma {:induction false} TruthyNamesMembers(refs: seq<Option<string>>)
    ensures forall x :: x in TruthyNames(refs) <==> x != "" && Some(x) in refs
    decreases |refs|
  {
    if refs != [] {
      var init := refs[..|refs| - 1];
      TruthyNamesMembers(init);
      InitLast(refs);
    }
  }

  /** At most six photo names, none empty, all taken from the first six entries. */
  lemma PhotoNamesShape(refs: seq<Option<string>>)
    ensures var names := PhotoNames(refs);
      && |names| <= 6
      && (forall x :: x in names <==> x != "" && Some(x) in Take(refs, 6))
  {
    TruthyNamesMembers(Take(refs, 6));
  }

  function ConvertReview(r: RawReview): Review {
    Review(r.rating.GetOr(0), r.text.GetOr(""), r.publishTime.GetOr(""), r.author.GetOr(""))
  }

  /**
   * The record built for one named place. Without details only the search fields are
   * used and every list is empty; with details each field takes the details value when
   * the key is there and the search value (or the default) when it is not.
   */
  function PlaceRecord(p: Place, d: Option<Details>): (c: Campsite)
    ensures c.placeId == p.id.GetOr("") && c.name == p.displayName.GetOr("")
    ensures c.source == Some("places_api_new") && c.photoUrls == [] && c.imageUrl == "" && |c.photos| <= 6
    ensures !TruthyDetails(d) ==>
      && c.photos == [] && c.facilities == [] && c.features == [] && c.reviews == []
      && c.description == "" && c.website == "" && c.phone == ""
      && c.rating == p.rating.GetOr(0) && c.reviewsCount == p.userRatingCount.GetOr(0)
      && c.address == p.formattedAddress.GetOr("")
    ensures !TruthyDetails(d) ==>
      && c.location == Some(p.location.GetOr(EmptyLocation))
      && c.priceLevel == p.priceLevel.GetOr("") && c.businessStatus == p.businessStatus.GetOr("")
    ensures TruthyDetails(d) && d.value.rating.Some? ==> c.rating == d.value.rating.value
    ensures TruthyDetails(d) && d.value.rating.None? ==> c.rating == p.rating.GetOr(0)
    ensures TruthyDetails(d) && d.value.formattedAddress.Some? ==> c.address == d.value.formattedAddress.value
    ensures TruthyDetails(d) && d.value.formattedAddress.None? ==> c.address == p.formattedAddress.GetOr("")
    ensures TruthyDetails(d) ==> c.photos == PhotoNames(d.value.photos.GetOr([]))
    ensures TruthyDetails(d) ==> |c.reviews| == |d.value.reviews.GetOr([])|
    ensures TruthyDetails(d) ==> forall i :: 0 <= i < |c.reviews| ==> c.reviews[i] == ConvertReview(d.value.reviews.value[i])
    ensures TruthyDetails(d) && d.value.userRatingCount.Some? ==> c.reviewsCount == d.value.userRatingCount.value
    ensures TruthyDetails(d) && d.value.userRatingCount.None? ==> c.reviewsCount == p.userRatingCount.GetOr(0)
    ensures TruthyDetails(d) && d.value.location.Some? ==> c.location == d.value.location
    ensures TruthyDetails(d) && d.value.location.None? ==> c.location == Some(p.location.GetOr(EmptyLocation))
    ensures TruthyDetails(d) && d.value.priceLevel.Some? ==> c.priceLevel == d.value.priceLevel.value
    ensures TruthyDetails(d) && d.value.priceLevel.None? ==> c.priceLevel == p.priceLevel.GetOr("")
    ensures TruthyDetails(d) && d.value.businessStatus.Some? ==> c.businessStatus == d.value.businessStatus.value
    ensures TruthyDetails(d) && d.value.businessStatus.None? ==> c.businessStatus == p.businessStatus.GetOr("")
    ensures TruthyDetails(d) ==> c.facilities == d.value.amenities.GetOr([])
    ensures TruthyDetails(d) && d.value.aboutThisPlace.Some? ==>
      c.features == d.value.aboutThisPlace.value.highlights.GetOr([])
      && c.description == d.value.aboutThisPlace.value.summary.GetOr("")
    ensures TruthyDetails(d) && d.value.aboutThisPlace.None? ==> c.features == [] && c.description == ""
    ensures TruthyDetails(d) ==>
      c.website == d.value.websiteUri.GetOr("") && c.phone == d.value.internationalPhoneNumber.GetOr("")
  {
    if !TruthyDetails(d) then
      Blank.(placeId := p.id.GetOr(""), name := p.displayName.GetOr(""),
             rating := p.rating.GetOr(0), reviewsCount := p.userRatingCount.GetOr(0),
             address := p.formattedAddress.GetOr(""), location := Some(p.location.GetOr(EmptyLocation)),
             priceLevel := p.priceLevel.GetOr(""), businessStatus := p.businessStatus.GetOr(""),
             source := Some("places_api_new"))
    else
      var det := d.value;
      var about := det.aboutThisPlace.GetOr(AboutThisPlace(None, None));
      var raw := det.reviews.GetOr([]);
      Blank.(placeId := p.id.GetOr(""), name := p.displayName.GetOr(""),
             rating := det.rating.GetOr(p.rating.GetOr(0)),
             reviewsCount := det.userRatingCount.GetOr(p.userRatingCount.GetOr(0)),
             address := det.formattedAddress.GetOr(p.formattedAddress.GetOr("")),
             location := Some(det.location.GetOr(p.location.GetOr(EmptyLocation))),
             photos := PhotoNames(det.photos.GetOr([])),
             facilities := det.amenities.GetOr([]),
             features := about.highlights.GetOr([]),
             description := about.summary.GetOr(""),
             website := det.websiteUri.GetOr(""),
             phone := det.internationalPhoneNumber.GetOr(""),
             priceLevel := det.priceLevel.GetOr(p.priceLevel.GetOr("")),
             businessStatus := det.businessStatus.GetOr(p.businessStatus.GetOr("")),
             source := Some("places_api_new"),
             reviews := seq(|raw|, i requires 0 <= i < |raw| => ConvertReview(raw[i])))
  }

  /** One record per named place, in order. */
  function PlaceRecords(named: seq<Place>, details: string -> Option<Details>): (r: seq<Campsite>)
    ensures |r| == |named|
  {
    seq(|named|, j requires 0 <= j < |named| => PlaceRecord(named[j], details(named[j].id.GetOr(""))))
  }

  /** What the converter returns. */
  function Converted(data: PlacesData, details: string -> Option<Details>): seq<Campsite> {
    PlaceRecords(Filter(PlacesOf(data), Named), details)
  }

  /** `convert_places_to_app_format_new`, with the details lookup passed in. */
  method ConvertPlacesToAppFormat(data: PlacesData, details: string -> Option<Details>)
    returns (campsites: seq<Campsite>)
    ensures campsites == Converted(data, details)
  {
    if data.NotADict? || data.hasError {
      return [];
    }
    if data.places.None? || data.places.value == [] {
      return [];
    }
    var places := data.places.value;
    campsites := [];
    for i := 0 to |places|
      invariant campsites == PlaceRecords(Filter(places[..i], Named), details)
    {
      PrefixSnoc(places, i);
      FilterConcat(places[..i], [places[i]], Named);
      var place := places[i];
      var name := place.displayName.GetOr("");
      if name != "" {
        var placeDetails := details(place.id.GetOr(""));
        campsites := campsites + [PlaceRecord(place, placeDetails)];
      }
    }
    assert places[..|places|] == places;
  }

  /** Each response the converter refuses (not a dictionary, an `error` key, no places) gives no records. */
  lemma ConvertedRefused(data: PlacesData, details: string -> Option<Details>)
    requires data.NotADict? || data.hasError || data.places.None? || data.places == Some([])
    ensures Converted(data, details) == []
  {
  }

  /**
   * The records are the named places, in response order: at most one per place, never
   * one for an unnamed place, each tagged with its source and none with a photo URL yet.
   */
  lemma ConvertedShape(data: PlacesData, details: string -> Option<Details>)
    ensures var r, named := Converted(data, details), Filter(PlacesOf(data), Named);
      && |r| == |named| <= |PlacesOf(data)|
      && IsSubsequence(named, PlacesOf(data))
      && (forall p :: p in named <==> p in PlacesOf(data) && p.displayName.GetOr("") != "")
      && (forall j :: 0 <= j < |r| ==> named[j].displayName == Some(r[j].name) && r[j].placeId == named[j].id.GetOr(""))
      && (forall j :: 0 <= j < |r| ==> r[j].name != "" && r[j].source == Some("places_api_new") && |r[j].photos| <= 6)
  {
    ConvertedNamed(data);
    ConvertedRecords(data, details);
  }

  /** The named places are those of the response with a non-empty name, in response order. */
  lemma ConvertedNamed(data: PlacesData)
    ensures var named := Filter(PlacesOf(data), Named);
      && |named| <= |PlacesOf(data)|
      && IsSubsequence(named, PlacesOf(data))
      && (forall p :: p in named <==> p in PlacesOf(data) && p.displayName.GetOr("") != "")
  {
    FilterIsSubsequence(PlacesOf(data), Named);
    FilterMembers(PlacesOf(data), Named);
  }

  /** Each record carries the name and id of its named place, and the source tag. */
  lemma ConvertedRecords(data: PlacesData, details: string -> Option<Details>)
    ensures var r, named := Converted(data, details), Filter(PlacesOf(data), Named);
      && |r| == |named|
      && (forall j :: 0 <= j < |r| ==> named[j].displayName == Some(r[j].name) && r[j].placeId == named[j].id.GetOr(""))
      && (forall j :: 0 <= j < |r| ==> r[j].name != "" && r[j].source == Some("places_api_new") && |r[j].photos| <= 6)
  {
    var r, named := Converted(data, details), Filter(PlacesOf(data), Named);
    FilterMembers(PlacesOf(data), Named);
    forall j | 0 <= j < |r|
      ensures named[j].displayName == Some(r[j].name) && r[j].placeId == named[j].id.GetOr("")
      ensures r[j].name != "" && r[j].source == Some("places_api_new") && |r[j].photos| <= 6
    {
      assert named[j] in named;
      assert r[j] == PlaceRecord(named[j], details(named[j].id.GetOr("")));
    }
  }

  // ------------------------------------------------------------------
  // Payment and parking options
  // ------------------------------------------------------------------

  /** `paymentOptions`, each flag defaulting to false when its key is absent. */
  datatype PaymentOptions = PaymentOptions(acceptsCreditCards: bool, acceptsDebitCards: bool,
                                           acceptsCashOnly: bool, acceptsNfc: bool)

  datatype ParkingOptions = ParkingOptions(freeParking: bool, paidParking: bool, freeStreetParking: bool,
                                           valetParking: bool, freeGarageParking: bool, paidGarageParking: bool)

  const PaymentLabels: seq<string> := ["credit_card", "debit_card", "cash_only", "nfc"]
  const ParkingLabels: seq<string> :=
    ["free_parking", "paid_parking", "free_street_parking", "valet_parking", "free_garage_parking", "paid_garage_parking"]

  /** The labels whose flag is set, in label order. */
  function SetLabels(flags: seq<bool>, labels: seq<string>): (r: seq<string>)
    requires |flags| == |labels|
    ensures |r| <= |labels|
  {
    if flags == [] then []
    else
      var n := |flags| - 1;
      SetLabels(flags[..n], labels[..n]) + (if flags[n] then [labels[n]] else [])
  }

  /** A label is listed exactly when its flag is set; labels keep their order and never repeat. */
  lemma {:induction false} SetLabelsExact(flags: seq<bool>, labels: seq<string>)
    requires |flags| == |labels| && NoDup(labels)
    ensures var r := SetLabels(flags, labels);
      && (forall i :: 0 <= i < |labels| ==> (labels[i] in r <==> flags[i]))
      && (forall x :: x in r ==> x in labels)
      && NoDup(r)
    decreases |flags|
  {
    if flags != [] {
      var n := |flags| - 1;
      SetLabelsExact(flags[..n], labels[..n]);
      var r := SetLabels(flags, labels);
      var before := SetLabels(flags[..n], labels[..n]);
      assert labels[n] !in before by {
        forall i | 0 <= i < n ensures labels[..n][i] != labels[n] { }
      }
      forall i | 0 <= i < |labels| ensures labels[i] in r <==> flags[i] {
        if i < n {
          assert labels[..n][i] == labels[i];
          assert labels[i] != labels[n];
        }
      }
    }
  }

  function PaymentFlags(p: PaymentOptions): seq<bool> {
    [p.acceptsCreditCards, p.acceptsDebitCards, p.acceptsCashOnly, p.acceptsNfc]
  }

  function ParkingFlags(p: ParkingOptions): seq<bool> {
    [p.freeParking, p.paidParking, p.freeStreetParking, p.valetParking, p.freeGarageParking, p.paidGarageParking]
  }

  /** `extract_payment_options`. */
  method ExtractPaymentOptions(p: PaymentOptions) returns (options: seq<string>)
    ensures options == SetLabels(PaymentFlags(p), PaymentLabels)
  {
    options := [];
    options := AppendIf(options, p.acceptsCreditCards, "credit_card");
    options := AppendIf(options, p.acceptsDebitCards, "debit_card");
    options := AppendIf(options, p.acceptsCashOnly, "cash_only");
    options := AppendIf(options, p.acceptsNfc, "nfc");
    PaymentLabelsUnrolled(PaymentFlags(p));
  }

  /** `SetLabels` over the four payment flags, written out. */
  lemma PaymentLabelsUnrolled(f: seq<bool>)
    requires |f| == 4
    ensures SetLabels(f, PaymentLabels)
      == [] + (if f[0] then ["credit_card"] else []) + (if f[1] then ["debit_card"] else [])
         + (if f[2] then ["cash_only"] else []) + (if f[3] then ["nfc"] else [])
  {
    var labels := PaymentLabels;
    LabelsStep(f, labels, 0);
    LabelsStep(f, labels, 1);
    LabelsStep(f, labels, 2);
    LabelsStep(f, labels, 3);
    assert f[..4] == f && labels[..4] == labels;
  }

  /** `if flag: options.append(tag)`. */
  method AppendIf(options: seq<string>, flag: bool, tag: string) returns (r: seq<string>)
    ensures r == options + (if flag then [tag] else [])
  {
    r := options;
    if flag {
      r := r + [tag];
    }
  }

  /** Taking one more flag into account appends its label when it is set. */
  lemma LabelsStep(flags: seq<bool>, labels: seq<string>, k: int)
    requires |flags| == |labels| && 0 <= k < |flags|
    ensures SetLabels(flags[..k + 1], labels[..k + 1])
      == SetLabels(flags[..k], labels[..k]) + (if flags[k] then [labels[k]] else [])
  {
    assert flags[..k + 1][..k] == flags[..k];
    assert labels[..k + 1][..k] == labels[..k];
  }

  /** `extract_parking_options`. */
  method ExtractParkingOptions(p: ParkingOptions) returns (options: seq<string>)
    ensures options == SetLabels(ParkingFlags(p), ParkingLabels)
  {
    options := [];
    options := AppendIf(options, p.freeParking, "free_parking");
    options := AppendIf(options, p.paidParking, "paid_parking");
    options := AppendIf(options, p.freeStreetParking, "free_street_parking");
    options := AppendIf(options, p.valetParking, "valet_parking");
    options := AppendIf(options, p.freeGarageParking, "free_garage_parking");
    options := AppendIf(options, p.paidGarageParking, "paid_garage_parking");
    ParkingLabelsUnrolled(ParkingFlags(p));
  }

  /** `SetLabels` over the six parking flags, written out. */
  lemma ParkingLabelsUnrolled(f: seq<bool>)
    requires |f| == 6
    ensures SetLabels(f, ParkingLabels)
      == [] + (if f[0] then ["free_parking"] else []) + (if f[1] then ["paid_parking"] else [])
         + (if f[2] then ["free_street_parking"] else []) + (if f[3] then ["valet_parking"] else [])
         + (if f[4] then ["free_garage_parking"] else []) + (if f[5] then ["paid_garage_parking"] else [])
  {
    var labels := ParkingLabels;
    LabelsStep(f, labels, 0);
    LabelsStep(f, labels, 1);
    LabelsStep(f, labels, 2);
    LabelsStep(f, labels, 3);
    LabelsStep(f, labels, 4);
    LabelsStep(f, labels, 5);
    assert f[..6] == f && labels[..6] == labels;
  }

  /** The payment list names exactly the accepted methods, each once, in the fixed order. */
  lemma PaymentOptionsExact(p: PaymentOptions)
    ensures var r := SetLabels(PaymentFlags(p), PaymentLabels);
      && ("credit_card" in r <==> p.acceptsCreditCards) && ("debit_card" in r <==> p.acceptsDebitCards)
      && ("cash_only" in r <==> p.acceptsCashOnly) && ("nfc" in r <==> p.acceptsNfc)
      && IsSubsequence(r, PaymentLabels) && NoDup(r)
  {
    SetLabelsExact(PaymentFlags(p), PaymentLabels);
    SetLabelsSubsequence(PaymentFlags(p), PaymentLabels);
    var r := SetLabels(PaymentFlags(p), PaymentLabels);
    assert PaymentLabels[0] == "credit_card" && PaymentLabels[1] == "debit_card";
    assert PaymentLabels[2] == "cash_only" && PaymentLabels[3] == "nfc";
  }

  /** The parking list names exactly the available kinds, each once, in the fixed order. */
  lemma ParkingOptionsExact(p: ParkingOptions)
    ensures var r := SetLabels(ParkingFlags(p), ParkingLabels);
      && ("free_parking" in r <==> p.freeParking) && ("paid_parking" in r <==> p.paidParking)
      && ("free_street_parking" in r <==> p.freeStreetParking) && ("valet_parking" in r <==> p.valetParking)
      && ("free_garage_parking" in r <==> p.freeGarageParking) && ("paid_garage_parking" in r <==> p.paidGarageParking)
      && IsSubsequence(r, ParkingLabels) && NoDup(r)
  {
    SetLabelsExact(ParkingFlags(p), ParkingLabels);
    SetLabelsSubsequence(ParkingFlags(p), ParkingLabels);
    var r := SetLabels(ParkingFlags(p), ParkingLabels);
    assert ParkingLabels[0] == "free_parking" && ParkingLabels[1] == "paid_parking";
    assert ParkingLabels[2] == "free_street_parking" && ParkingLabels[3] == "valet_parking";
    assert ParkingLabels[4] == "free_garage_parking" && ParkingLabels[5] == "paid_garage_parking";
  }

  /** The listed labels keep the label order. */
  lemma {:induction false} SetLabelsSubsequence(flags: seq<bool>, labels: seq<string>)
    requires |flags| == |labels|
    ensures IsSubsequence(SetLabels(flags, labels), labels)
    decreases |flags|
  {
    if flags != [] {
      var n := |flags| - 1;
      SetLabelsSubsequence(flags[..n], labels[..n]);
      SubsequenceSnoc(SetLabels(flags[..n], labels[..n]), labels[..n], labels[n], flags[n]);
      assert labels == labels[..n] + [labels[n]];
    }
  }

  // ------------------------------------------------------------------
  // Opening hours
  // ------------------------------------------------------------------

  /** One `periods` entry: opening and closing day and time. */
  datatype Period = Period(openDay: int, openTime: string, closeDay: int, closeTime: string)

  /** `regularOpeningHours` as the details carry it. */
  datatype OpeningHours = OpeningHours(weekdayDescriptions: Option<seq<string>>, openNow: Option<bool>,
                                       periods: Option<seq<Period>>)

  /** The reshaped dictionary, keys `text`, `open_now` and `periods`. */
  datatype FormattedHours = FormattedHours(text: Option<seq<string>>, openNow: Option<bool>,
                                           periods: Option<seq<Period>>)

  /**
   * `format_opening_hours`: an absent or empty input gives the empty dictionary;
   * otherwise each output key is present exactly when its input key is, with its value.
   */
  function FormatOpeningHours(hours: Option<OpeningHours>): (f: FormattedHours)
    ensures hours.None? ==> f == FormattedHours(None, None, None)
    ensures hours.Some? ==>
      && (f.text.Some? <==> hours.value.weekdayDescriptions.Some?)
      && (f.openNow.Some? <==> hours.value.openNow.Some?)
      && (f.periods.Some? <==> hours.value.periods.Some?)
    ensures hours.Some? && f.text.Some? ==> f.text == hours.value.weekdayDescriptions
    ensures hours.Some? && f.openNow.Some? ==> f.openNow == hours.value.openNow
    ensures hours.Some? && f.periods.Some? ==> f.periods == hours.value.periods
  {
    match hours
    case None => FormattedHours(None, None, None)
    case Some(h) => FormattedHours(h.weekdayDescriptions, h.openNow, h.periods)
  }
}
