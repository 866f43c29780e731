/**
 * The map view's data rules (`components/map_display.py`): the loop that keeps the
 * records carrying usable coordinates and rewrites their `location` into the standard
 * `{"lat": ..., "lng": ...}` shape, and the marker colour and size of a record.
 */
module MapDisplay {
  import opened Wrappers
  import opened Text
  import opened Records

  /** A present coordinate that Python treats as true (0 stands for every falsy value). */
  predicate Truthy(v: Option<int>) {
    v.Some? && v.value != 0
  }

  /** The standard location dictionary `{"lat": lat, "lng": lng}`. */
  function LatLng(lat: int, lng: int): LocationDict {
    LocationDict(None, None, Some(lat), Some(lng))
  }

  /** A location dictionary with both `latitude` and `longitude` keys. */
  predicate HasLongKeys(loc: LocationDict) {
    loc.latitude.Some? && loc.longitude.Some?
  }

  /** A location dictionary with both `lat` and `lng` keys. */
  predicate HasShortKeys(loc: LocationDict) {
    loc.lat.Some? && loc.lng.Some?
  }

  /**
   * One pass of the filter loop: the record as it is kept (`None` when it is dropped).
   * A `location` dictionary decides alone: its `latitude`/`longitude` keys first, then
   * its `lat`/`lng` keys. Only a record without one falls back to the top-level keys.
   */
  function Located(site: Campsite): Option<Campsite> {
    match site.location
    case Some(loc) =>
      if HasLongKeys(loc) then
        if Truthy(loc.latitude) && Truthy(loc.longitude) then
          Some(site.(location := Some(LatLng(loc.latitude.value, loc.longitude.value))))
        else None
      else if HasShortKeys(loc) then
        if Truthy(loc.lat) && Truthy(loc.lng) then Some(site) else None
      else None
    case None =>
      if Truthy(site.latitude) && Truthy(site.longitude) then
        Some(site.(location := Some(LatLng(site.latitude.value, site.longitude.value))))
      else None
  }

  /** The record as the loop leaves it in the caller's list: rewritten when kept, as it was otherwise. */
  function Normalised(site: Campsite): Campsite {
    Located(site).GetOr(site)
  }

  /** `valid_locations` after the loop over `campsites`. */
  function ValidLocations(campsites: seq<Campsite>): seq<Campsite>
    decreases |campsites|
  {
    if campsites == [] then []
    else
      var last := campsites[|campsites| - 1];
      ValidLocations(campsites[..|campsites| - 1]) + (if Located(last).Some? then [Located(last).value] else [])
  }

  /**
   * The filter loop of `display_map`. `updated` is the caller's list afterwards, since
   * the loop rewrites `site["location"]` in the records it keeps.
   */
  method FilterValidLocations(campsites: seq<Campsite>) returns (valid: seq<Campsite>, updated: seq<Campsite>)
    ensures valid == ValidLocations(campsites)
    ensures updated == MapSeq(campsites, Normalised)
  {
    valid := [];
    updated := [];
    for i := 0 to |campsites|
      invariant valid == ValidLocations(campsites[..i])
      invariant updated == MapSeq(campsites[..i], Normalised)
    {
      var keep, site := LocateSite(campsites[i]);
      assert campsites[..i + 1][..i] == campsites[..i];
      MapSeqSnoc(campsites[..i], campsites[i], Normalised);
      PrefixSnoc(campsites, i);
      if keep {
        valid := valid + [site];
      }
      updated := updated + [site];
    }
    assert campsites[..|campsites|] == campsites;
  }

  /** The body of the filter loop for one record. */
  method LocateSite(site0: Campsite) returns (keep: bool, site: Campsite)
    ensures keep <==> Located(site0).Some?
    ensures site == Normalised(site0)
  {
    site := site0;
    keep := false;
    if site.location.Some? {
      var loc := site.location.value;
      if loc.latitude.Some? && loc.longitude.Some? {
        var lat := loc.latitude.value;
        var lng := loc.longitude.value;
        if lat != 0 && lng != 0 {
          site := site.(location := Some(LatLng(lat, lng)));
          keep := true;
        }
      } else if loc.lat.Some? && loc.lng.Some? {
        if loc.lat.value != 0 && loc.lng.value != 0 {
          keep := true;
        }
      }
    } else if site.latitude.Some? && site.longitude.Some? && site.latitude.value != 0 && site.longitude.value != 0 {
      site := site.(location := Some(LatLng(site.latitude.value, site.longitude.value)));
      keep := true;
    }
  }

  /**
   * A kept record has a standard location with two truthy coordinates, and nothing
   * but its location differs from the record it came from.
   */
  lemma LocatedShape(site: Campsite)
    ensures Located(site).Some? ==>
      var kept := Located(site).value;
      && kept.location.Some?
      && Truthy(kept.location.value.lat) && Truthy(kept.location.value.lng)
      && kept == site.(location := kept.location)
  {
  }

  /**
   * Which records are kept: exactly those with truthy nested `latitude`/`longitude`,
   * or, lacking those keys, truthy nested `lat`/`lng`, or, lacking a `location`
   * dictionary, truthy top-level coordinates, whose values the standard shape carries.
   */
  lemma LocatedExactly(site: Campsite)
    ensures site.location.Some? && HasLongKeys(site.location.value) ==>
      (Located(site).Some? <==> Truthy(site.location.value.latitude) && Truthy(site.location.value.longitude))
    ensures site.location.Some? && !HasLongKeys(site.location.value) && HasShortKeys(site.location.value) ==>
      (Located(site).Some? <==> Truthy(site.location.value.lat) && Truthy(site.location.value.lng))
    ensures site.location.None? ==> (Located(site).Some? <==> Truthy(site.latitude) && Truthy(site.longitude))
    ensures site.location.Some? && HasLongKeys(site.location.value) && Located(site).Some? ==>
      Located(site).value.location == Some(LatLng(site.location.value.latitude.value, site.location.value.longitude.value))
    ensures site.location.None? && Located(site).Some? ==>
      Located(site).value.location == Some(LatLng(site.latitude.value, site.longitude.value))
  {
  }

  /**
   * A `location` dictionary with neither complete pair drops the record, whatever its
   * top-level coordinates; so does one whose `latitude`/`longitude` pair is falsy,
   * whatever its `lat`/`lng` pair.
   */
  lemma LocationDictShadowsTopLevel(site: Campsite)
    ensures site.location.Some? && !HasLongKeys(site.location.value) && !HasShortKeys(site.location.value) ==>
      Located(site).None?
    ensures (site.location.Some? && HasLongKeys(site.location.value) &&
             !(Truthy(site.location.value.latitude) && Truthy(site.location.value.longitude))) ==> Located(site).None?
  {
  }

  /**
   * The kept list: no longer than the input, each record the rewrite of an input
   * record, and each with a standard location holding truthy coordinates.
   */
  lemma {:induction false} ValidLocationsShape(campsites: seq<Campsite>)
    ensures var valid := ValidLocations(campsites);
      && |valid| <= |campsites|
      && (forall v :: v in valid ==> exists c :: c in campsites && Located(c) == Some(v))
      && (forall v :: v in valid ==> v.location.Some? && Truthy(v.location.value.lat) && Truthy(v.location.value.lng))
    decreases |campsites|
  {
    if campsites != [] {
      var init := campsites[..|campsites| - 1];
      var last := campsites[|campsites| - 1];
      ValidLocationsShape(init);
      LocatedShape(last);
      var valid := ValidLocations(campsites);
      assert valid == ValidLocations(init) + (if Located(last).Some? then [Located(last).value] else []);
      forall v | v in valid ensures exists c :: c in campsites && Located(c) == Some(v) {
        if v in ValidLocations(init) {
          var c :| c in init && Located(c) == Some(v);
          assert c in campsites;
        } else {
          assert Located(last) == Some(v);
        }
      }
      forall v | v in valid ensures v.location.Some? && Truthy(v.location.value.lat) && Truthy(v.location.value.lng) {
        if v !in ValidLocations(init) {
          assert Located(last) == Some(v);
        }
      }
    }
  }

  /** Every input record with usable coordinates is in the kept list, rewritten. */
  lemma {:induction false} ValidLocationsMembers(campsites: seq<Campsite>, c: Campsite)
    requires c in campsites && Located(c).Some?
    ensures Located(c).value in ValidLocations(campsites)
    decreases |campsites|
  {
    var init := campsites[..|campsites| - 1];
    var last := campsites[|campsites| - 1];
    assert campsites == init + [last];
    if c != last {
      assert c in init;
      ValidLocationsMembers(init, c);
    }
  }

  /** The marker colour by rating (in tenths), with the thresholds 4.5, 4.0, 3.5 and 3.0. */
  function MarkerColor(rating: int): string {
    if rating >= 45 then "darkgreen"
    else if rating >= 40 then "green"
    else if rating >= 35 then "orange"
    else if rating >= 30 then "lightred"
    else "lightgray"
  }

  /** Each colour is given for exactly its range of ratings. */
  lemma MarkerColorBands(rating: int)
    ensures MarkerColor(rating) == "darkgreen" <==> rating >= 45
    ensures MarkerColor(rating) == "green" <==> 40 <= rating < 45
    ensures MarkerColor(rating) == "orange" <==> 35 <= rating < 40
    ensures MarkerColor(rating) == "lightred" <==> 30 <= rating < 35
    ensures MarkerColor(rating) == "lightgray" <==> rating < 30
  {
  }

  /** A better rating never gets a colour of a lower band. */
  function ColorRank(color: string): int {
    if color == "darkgreen" then 4 else if color == "green" then 3 else if color == "orange" then 2
    else if color == "lightred" then 1 else 0
  }

  lemma MarkerColorMonotone(a: int, b: int)
    requires a <= b
    ensures ColorRank(MarkerColor(a)) <= ColorRank(MarkerColor(b))
  {
  }

  /**
   * The marker radius in twentieths of a unit: `min(10 + score / 2, 20)` with the score
   * in tenths is `min(200 + score, 400)` twentieths; 10 units (200) without a score.
   */
  function MarkerRadius(score: Option<int>): (r: int)
    ensures r <= 400
    ensures score.None? ==> r == 200
    ensures score.Some? && score.value <= 200 ==> r == 200 + score.value
  {
    if score.Some? then (if 200 + score.value < 400 then 200 + score.value else 400) else 200
  }

  /** A higher score never gives a smaller marker. */
  lemma MarkerRadiusMonotone(a: int, b: int)
    requires a <= b
    ensures MarkerRadius(Some(a)) <= MarkerRadius(Some(b))
  {
  }
}
