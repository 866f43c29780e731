/**
 * The campsite record that flows through the search pipeline. In the source it is a
 * dictionary whose keys are filled in by several stages; here every key is a field.
 * A string, list or number field holds "", [] or 0 when the key is absent, which is
 * what every reader of that key in the source falls back to. `Option` is used where
 * the source distinguishes an absent key from a present one.
 */
module Records {
  import opened Wrappers
  import opened Text

  /**
   * A `location` dictionary. Each coordinate key may be absent (`None`); a present
   * key holds a fixed-point coordinate, with 0 standing for every falsy value.
   */
  datatype LocationDict = LocationDict(latitude: Option<int>, longitude: Option<int>, lat: Option<int>, lng: Option<int>)

  const EmptyLocation := LocationDict(None, None, None, None)

  /** One review as the Places converter stores it. */
  datatype Review = Review(rating: int, text: string, time: string, author: string)

  datatype Campsite = Campsite(
    placeId: string,
    name: string,
    /** Star rating in tenths (4.5 stars is 45). */
    rating: int,
    reviewsCount: int,
    address: string,
    region: string,
    description: string,
    location: Option<LocationDict>,
    /** Top-level `latitude` / `longitude` keys. */
    latitude: Option<int>,
    longitude: Option<int>,
    /** Places photo resource names (or image URLs for web results). */
    photos: seq<string>,
    photoNames: seq<string>,
    photoUrls: seq<string>,
    imageUrl: string,
    facilities: seq<string>,
    features: seq<string>,
    website: string,
    phone: string,
    priceLevel: string,
    businessStatus: string,
    source: Option<string>,
    reviews: seq<Review>,
    /** Relevance score in tenths (0.7 is 7); `None` until the evaluator sets it. */
    score: Option<int>,
    matchScore: Option<int>,
    recommendationReason: string,
    mismatchReason: string,
    multipleSources: bool,
    occurrenceCount: int,
    popularityScore: int,
    highlights: string,
    bestFor: string,
    googleMapsUri: string,
    websiteUri: string,
    reviewSummary: string,
    aiRecommendation: string,
    isFeatured: bool,
    isPopular: bool
  )

  /** The record with no keys set. */
  const Blank := Campsite(
    "", "", 0, 0, "", "", "", None, None, None, [], [], [], "", [], [], "", "", "", "",
    None, [], None, None, "", "", false, 0, 0, "", "", "", "", "", "", false, false)

  /** `record.get("score", 0)`. */
  function ScoreOf(c: Campsite): int {
    c.score.GetOr(0)
  }

  function RatingOf(c: Campsite): int {
    c.rating
  }

  function ReviewsCountOf(c: Campsite): int {
    c.reviewsCount
  }

  function PopularityOf(c: Campsite): int {
    c.popularityScore
  }

  function PlaceIdOf(c: Campsite): string {
    c.placeId
  }

  /** `record.get("name", "").lower()`, the key records are matched by. */
  function NameKey(c: Campsite): (k: string)
    ensures |k| == |c.name|
  {
    Lower(c.name)
  }

  /** Python truthiness of an optional string-valued key. */
  predicate TruthyText(o: Option<string>) {
    o.Some? && o.value != ""
  }

  /** Python truthiness of an optional number-valued key. */
  predicate TruthyNumber(o: Option<int>) {
    o.Some? && o.value != 0
  }

  /** Python truthiness of an optional dictionary: an empty dictionary is falsy. */
  predicate TruthyLocation(o: Option<LocationDict>) {
    o.Some? && o.value != EmptyLocation
  }

  // ------------------------------------------------------------------
  // Matching records by lower-cased name
  // ------------------------------------------------------------------

  /** Number of records whose lower-cased name is `n`. */
  function CountKey(s: seq<Campsite>, n: string): nat
  {
    if |s| == 0 then 0
    else CountKey(s[..|s|-1], n) + (if NameKey(s[|s|-1]) == n then 1 else 0)
  }

  /** `i` is the first position of a record keyed `n`. */
  predicate IsFirstKey(s: seq<Campsite>, n: string, i: int) {
    0 <= i < |s| && NameKey(s[i]) == n && forall j :: 0 <= j < i ==> NameKey(s[j]) != n
  }

  predicate KeyAbsent(s: seq<Campsite>, n: string) {
    forall j :: 0 <= j < |s| ==> NameKey(s[j]) != n
  }

  /** The position of the first record keyed `n`, or `|s|` when there is none. */
  function KeyIndex(s: seq<Campsite>, n: string): (i: nat)
    ensures i <= |s|
  {
    if |s| == 0 then 0
    else if NameKey(s[0]) == n then 0
    else 1 + KeyIndex(s[1..], n)
  }

  /** `KeyIndex` finds the first record keyed `n`, and reports `|s|` only when there is none. */
  lemma {:induction false} KeyIndexFirst(s: seq<Campsite>, n: string)
    ensures var i := KeyIndex(s, n);
      (i < |s| ==> IsFirstKey(s, n, i)) && (i == |s| ==> KeyAbsent(s, n))
    decreases |s|
  {
    if |s| > 0 && NameKey(s[0]) != n {
      KeyIndexFirst(s[1..], n);
      var i := KeyIndex(s[1..], n);
      if i < |s| - 1 {
        forall j | 0 <= j < i + 1 ensures NameKey(s[j]) != n {
          if j > 0 { assert s[j] == s[1..][j - 1]; }
        }
      } else {
        forall j | 0 <= j < |s| ensures NameKey(s[j]) != n {
          if j > 0 { assert s[j] == s[1..][j - 1]; }
        }
      }
    }
  }

  predicate HasKey(s: seq<Campsite>, n: string) {
    KeyIndex(s, n) < |s|
  }

  lemma KeyIndexUnique(s: seq<Campsite>, n: string, i: int)
    requires IsFirstKey(s, n, i)
    ensures KeyIndex(s, n) == i
  {
    KeyIndexFirst(s, n);
  }

  lemma KeyIndexAbsent(s: seq<Campsite>, n: string)
    requires KeyAbsent(s, n)
    ensures KeyIndex(s, n) == |s|
  {
    KeyIndexFirst(s, n);
  }

  lemma KeyIndexOfMember(s: seq<Campsite>, j: int)
    requires 0 <= j < |s|
    ensures KeyIndex(s, NameKey(s[j])) <= j
  {
    KeyIndexFirst(s, NameKey(s[j]));
  }

  /** Only the key of the record at `i` has its first position at `i`. */
  lemma KeyIndexAt(s: seq<Campsite>, i: int)
    requires 0 <= i < |s|
    ensures forall n :: KeyIndex(s, n) == i ==> n == NameKey(s[i])
  {
    forall n | KeyIndex(s, n) == i ensures n == NameKey(s[i]) {
      KeyIndexFirst(s, n);
    }
  }

  /** Appending a record leaves earlier first positions alone. */
  lemma KeyIndexSnoc(s: seq<Campsite>, c: Campsite)
    ensures forall n :: HasKey(s, n) ==> KeyIndex(s + [c], n) == KeyIndex(s, n)
    ensures KeyIndex(s + [c], NameKey(c)) == KeyIndex(s, NameKey(c))
    ensures forall n :: !HasKey(s, n) && n != NameKey(c) ==> KeyIndex(s + [c], n) == |s| + 1
  {
    forall n | HasKey(s, n) ensures KeyIndex(s + [c], n) == KeyIndex(s, n) {
      KeyIndexFirst(s, n);
      KeyIndexUnique(s + [c], n, KeyIndex(s, n));
    }
    if !HasKey(s, NameKey(c)) {
      KeyIndexFirst(s, NameKey(c));
      KeyIndexUnique(s + [c], NameKey(c), |s|);
    }
    forall n | !HasKey(s, n) && n != NameKey(c) ensures KeyIndex(s + [c], n) == |s| + 1 {
      KeyIndexFirst(s, n);
      KeyIndexAbsent(s + [c], n);
    }
  }

  /** Replacing a record by one with the same key changes no first position. */
  lemma KeyIndexUpdate(s: seq<Campsite>, i: int, c: Campsite)
    requires 0 <= i < |s| && NameKey(c) == NameKey(s[i])
    ensures forall n :: KeyIndex(s[i := c], n) == KeyIndex(s, n)
  {
    forall n ensures KeyIndex(s[i := c], n) == KeyIndex(s, n) {
      KeyIndexFirst(s, n);
      if HasKey(s, n) {
        KeyIndexUnique(s[i := c], n, KeyIndex(s, n));
      } else {
        KeyIndexAbsent(s[i := c], n);
      }
    }
  }

  lemma CountKeySnoc(s: seq<Campsite>, c: Campsite)
    ensures forall n :: CountKey(s + [c], n) == CountKey(s, n) + (if NameKey(c) == n then 1 else 0)
  {
    assert (s + [c])[..|s|] == s;
  }

  /** A key is counted zero times exactly when no record carries it. */
  lemma {:induction false} CountKeyZero(s: seq<Campsite>, n: string)
    ensures CountKey(s, n) == 0 <==> !HasKey(s, n)
    decreases |s|
  {
    if |s| > 0 {
      var init := s[..|s|-1];
      CountKeyZero(init, n);
      InitLast(s);
      KeyIndexSnoc(init, s[|s|-1]);
    }
  }
}
