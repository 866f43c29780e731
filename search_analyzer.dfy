/**
 * The result analyser (`utils/search_analyzer.py`): the model's structured reading of
 * the search results is laid over the original records by lower-cased name, and the
 * entries the model added are appended as new records.
 */
module SearchAnalyzer {
  import opened Wrappers
  import opened Text
  import opened Records
  import opened JsonFence

  /** One entry of the model's "structured_results" list. */
  datatype Analysed = Analysed(name: string, region: string, description: string,
                               features: seq<string>, facilities: seq<string>,
                               highlights: string, bestFor: string)

  function AnalysedKey(a: Analysed): (k: string)
    ensures |k| == |a.name|
  {
    Lower(a.name)
  }

  /** The dictionary `{name.lower(): entry for entry in analysed if name}`: a later entry overrides an earlier one. */
  function AnalysedDict(analysed: seq<Analysed>): map<string, Analysed>
  {
    if |analysed| == 0 then map[]
    else
      var d, a := AnalysedDict(analysed[..|analysed|-1]), analysed[|analysed|-1];
      if a.name == "" then d else d[AnalysedKey(a) := a]
  }

  /** The dictionary's key order: each key where it was first inserted. */
  function DictOrder(analysed: seq<Analysed>): seq<string>
  {
    if |analysed| == 0 then []
    else
      var init, a := analysed[..|analysed|-1], analysed[|analysed|-1];
      var o := DictOrder(init);
      if a.name == "" || AnalysedKey(a) in AnalysedDict(init) then o else o + [AnalysedKey(a)]
  }

  /** No key of the dictionary is empty, and each key is that of the entry it holds. */
  lemma {:induction false} AnalysedDictKeys(analysed: seq<Analysed>)
    ensures forall k :: k in AnalysedDict(analysed) ==> k != "" && AnalysedKey(AnalysedDict(analysed)[k]) == k
    decreases |analysed|
  {
    if |analysed| > 0 {
      var init, a := analysed[..|analysed|-1], analysed[|analysed|-1];
      AnalysedDictKeys(init);
      var d := AnalysedDict(analysed);
      forall k | k in d ensures k != "" && AnalysedKey(d[k]) == k {
        if a.name != "" && k == AnalysedKey(a) {
          assert |k| == |a.name|;
        } else {
          assert d[k] == AnalysedDict(init)[k];
        }
      }
    }
  }

  /** The key order lists every key of the dictionary exactly once and nothing else. */
  lemma {:induction false} DictOrderKeys(analysed: seq<Analysed>)
    ensures var d, o := AnalysedDict(analysed), DictOrder(analysed);
      NoDup(o) && |o| <= |analysed| && forall k :: k in o <==> k in d
    decreases |analysed|
  {
    if |analysed| > 0 {
      var init, a := analysed[..|analysed|-1], analysed[|analysed|-1];
      DictOrderKeys(init);
      var o := DictOrder(init);
      if a.name != "" && AnalysedKey(a) !in AnalysedDict(init) {
        assert AnalysedKey(a) !in o;
        forall i, j | 0 <= i < j < |o| + 1 ensures (o + [AnalysedKey(a)])[i] != (o + [AnalysedKey(a)])[j] {
          if j == |o| {
            assert (o + [AnalysedKey(a)])[i] == o[i];
          }
        }
      }
    }
  }

  /** A later entry with the same lower-cased name wins: each key holds the last entry that has it. */
  lemma {:induction false} DictLastWins(analysed: seq<Analysed>, k: string)
    requires k in AnalysedDict(analysed)
    ensures exists j :: 0 <= j < |analysed| && analysed[j] == AnalysedDict(analysed)[k] &&
              forall j' :: j < j' < |analysed| ==> AnalysedKey(analysed[j']) != k || analysed[j'].name == ""
    decreases |analysed|
  {
    var init, a := analysed[..|analysed|-1], analysed[|analysed|-1];
    var d := AnalysedDict(analysed);
    if a.name != "" && k == AnalysedKey(a) {
      assert analysed[|analysed| - 1] == d[k];
    } else {
      assert d[k] == AnalysedDict(init)[k];
      DictLastWins(init, k);
      var j :| 0 <= j < |init| && init[j] == d[k]
        && forall j' :: j < j' < |init| ==> AnalysedKey(init[j']) != k || init[j'].name == "";
      assert analysed[j] == d[k];
    }
  }

  /** `merged = original.copy()` with the analysed entry laid over it. */
  function MergeRecord(original: Campsite, a: Analysed): (merged: Campsite)
    ensures merged == original.(description := merged.description, features := merged.features,
                                facilities := merged.facilities, highlights := merged.highlights,
                                bestFor := merged.bestFor)
    ensures |merged.description| >= |original.description|
    ensures merged.description == original.description || merged.description == a.description
    ensures merged.description != original.description ==> a.description != ""
    ensures a.description != "" && (original.description == "" || |a.description| > |original.description|) ==>
      merged.description == a.description
    ensures a.description == "" || (original.description != "" && |a.description| <= |original.description|) ==>
      merged.description == original.description
    ensures a.highlights != "" ==> merged.highlights == a.highlights
    ensures a.highlights == "" ==> merged.highlights == original.highlights
    ensures a.bestFor != "" ==> merged.bestFor == a.bestFor
    ensures a.bestFor == "" ==> merged.bestFor == original.bestFor
  {
    original.(
      description :=
        if a.description != "" && (original.description == "" || |a.description| > |original.description|)
        then a.description else original.description,
      features := AppendMissing(original.features, a.features),
      facilities := AppendMissing(original.facilities, a.facilities),
      highlights := if a.highlights != "" then a.highlights else original.highlights,
      bestFor := if a.bestFor != "" then a.bestFor else original.bestFor)
  }

  /**
   * The merged feature and facility lists are the original list followed by the
   * analysed items it lacked, each once: nothing is lost and no duplicate is added.
   */
  lemma MergeRecordLists(original: Campsite, a: Analysed)
    ensures var m := MergeRecord(original, a);
      && m.features[..|original.features|] == original.features
      && (forall x :: x in m.features <==> x in original.features || x in a.features)
      && (forall i :: |original.features| <= i < |m.features| ==> m.features[i] !in original.features)
      && (NoDup(original.features) ==> NoDup(m.features))
      && m.facilities[..|original.facilities|] == original.facilities
      && (forall x :: x in m.facilities <==> x in original.facilities || x in a.facilities)
      && (forall i :: |original.facilities| <= i < |m.facilities| ==> m.facilities[i] !in original.facilities)
      && (NoDup(original.facilities) ==> NoDup(m.facilities))
  {
    AppendMissingMembers(original.features, a.features);
    AppendMissingMembers(original.facilities, a.facilities);
  }

  /** A leftover analysed entry as a record of its own. */
  function NewCampsite(a: Analysed): (c: Campsite)
    ensures c.source == Some("gemini_analysis") && c.rating == 0 && c.reviewsCount == 0
    ensures c.name == a.name && c.features == a.features && c.facilities == a.facilities
  {
    Blank.(name := a.name, region := a.region, description := a.description,
           features := a.features, facilities := a.facilities,
           highlights := a.highlights, bestFor := a.bestFor,
           source := Some("gemini_analysis"))
  }

  /** The original record at `j` takes an entry when it is the first record with that key. */
  predicate Matched(original: seq<Campsite>, d: map<string, Analysed>, j: int)
    requires 0 <= j < |original|
  {
    NameKey(original[j]) in d && KeyIndex(original, NameKey(original[j])) == j
  }

  function Overlaid(original: seq<Campsite>, d: map<string, Analysed>, j: int): Campsite
    requires 0 <= j < |original|
  {
    if Matched(original, d, j) then MergeRecord(original[j], d[NameKey(original[j])]) else original[j]
  }

  /** The entries no original record took, in key order. */
  function Leftovers(d: map<string, Analysed>, order: seq<string>, original: seq<Campsite>): seq<Campsite>
  {
    if |order| == 0 then []
    else
      var k := order[|order|-1];
      Leftovers(d, order[..|order|-1], original)
        + (if k in d && !HasKey(original, k) then [NewCampsite(d[k])] else [])
  }

  /** The test of the leftover loop: an entry whose key no original record has. */
  function UnmatchedTest(d: map<string, Analysed>, original: seq<Campsite>): string -> bool {
    k => k in d && !HasKey(original, k)
  }

  /** The keys of `order` whose entries no original record took, in that order. */
  function UnmatchedKeys(d: map<string, Analysed>, order: seq<string>, original: seq<Campsite>): seq<string> {
    Filter(order, UnmatchedTest(d, original))
  }

  /** The leftovers are, in key order, the new records of exactly the unmatched keys. */
  lemma {:induction false} LeftoversAreUnmatched(d: map<string, Analysed>, order: seq<string>, original: seq<Campsite>)
    ensures |Leftovers(d, order, original)| == |UnmatchedKeys(d, order, original)|
    ensures forall j :: 0 <= j < |Leftovers(d, order, original)| ==>
      UnmatchedKeys(d, order, original)[j] in d &&
      Leftovers(d, order, original)[j] == NewCampsite(d[UnmatchedKeys(d, order, original)[j]])
    decreases |order|
  {
    FilterMembers(order, UnmatchedTest(d, original));
    if |order| > 0 {
      var init, k := order[..|order|-1], order[|order|-1];
      LeftoversAreUnmatched(d, init, original);
      assert order == init + [k];
      FilterConcat(init, [k], UnmatchedTest(d, original));
      assert Filter([k], UnmatchedTest(d, original)) == (if UnmatchedTest(d, original)(k) then [k] else []) by {
        assert [k][1..] == [];
      }
    }
  }

  /** The original records, each overlaid with its entry when it took one. */
  function OverlaidAll(original: seq<Campsite>, d: map<string, Analysed>): seq<Campsite>
  {
    seq(|original|, j requires 0 <= j < |original| => Overlaid(original, d, j))
  }

  /** What `merge_with_original_results` returns. */
  function MergedResults(original: seq<Campsite>, analysed: seq<Analysed>): seq<Campsite>
  {
    if analysed == [] then original
    else
      var d := AnalysedDict(analysed);
      OverlaidAll(original, d) + Leftovers(d, DictOrder(analysed), original)
  }

  /** `merge_with_original_results`. */
  method MergeWithOriginalResults(original: seq<Campsite>, analysed: seq<Analysed>) returns (merged: seq<Campsite>)
    ensures merged == MergedResults(original, analysed)
  {
    if analysed == [] {
      return original;
    }
    var analysedDict := AnalysedDict(analysed);
    var order := DictOrder(analysed);
    var remaining;
    merged, remaining := OverlayOriginals(original, analysedDict);
    ghost var overlaid := merged;
    var t := 0;
    while t < |order|
      invariant 0 <= t <= |order|
      invariant merged == overlaid + Leftovers(analysedDict, order[..t], original)
    {
      var key := order[t];
      assert order[..t + 1][..t] == order[..t];
      if key in remaining {
        merged := merged + [NewCampsite(remaining[key])];
      }
      t := t + 1;
    }
    assert order[..t] == order;
  }

  /** The loop over the original records: each takes its entry, which is then removed. */
  method OverlayOriginals(original: seq<Campsite>, analysedDict: map<string, Analysed>)
    returns (merged: seq<Campsite>, remaining: map<string, Analysed>)
    ensures merged == OverlaidAll(original, analysedDict)
    ensures forall k :: k in remaining <==> k in analysedDict && !HasKey(original, k)
    ensures forall k :: k in remaining ==> remaining[k] == analysedDict[k]
  {
    remaining := analysedDict;
    merged := [];
    var i := 0;
    while i < |original|
      invariant 0 <= i <= |original| && |merged| == i
      invariant forall j :: 0 <= j < i ==> merged[j] == Overlaid(original, analysedDict, j)
      invariant forall k :: k in remaining <==> k in analysedDict && KeyIndex(original, k) >= i
      invariant forall k :: k in remaining ==> remaining[k] == analysedDict[k]
    {
      var name := NameKey(original[i]);
      KeyIndexOfMember(original, i);
      KeyIndexAt(original, i);
      if name in remaining {
        merged := merged + [MergeRecord(original[i], remaining[name])];
        remaining := remaining - {name};
      } else {
        merged := merged + [original[i]];
      }
      i := i + 1;
    }
  }

  lemma {:induction false} LeftoversShape(d: map<string, Analysed>, order: seq<string>, original: seq<Campsite>)
    requires forall k :: k in d ==> AnalysedKey(d[k]) == k
    ensures var r := Leftovers(d, order, original);
      && |r| <= |order|
      && forall j :: 0 <= j < |r| ==>
           (r[j].source == Some("gemini_analysis") && r[j].rating == 0
            && r[j].reviewsCount == 0 && !HasKey(original, NameKey(r[j])) && NameKey(r[j]) in order)
    decreases |order|
  {
    if |order| > 0 {
      LeftoversShape(d, order[..|order|-1], original);
    }
  }

  /**
   * The records appended after the originals: one per dictionary key that no original
   * record has, each the new record of that key's entry, in the dictionary's key order,
   * and no key twice.
   */
  lemma LeftoversOfAnalysed(original: seq<Campsite>, analysed: seq<Analysed>)
    ensures var r := Leftovers(AnalysedDict(analysed), DictOrder(analysed), original);
      && |r| <= |analysed|
      && forall j :: 0 <= j < |r| ==>
           (r[j].source == Some("gemini_analysis") && r[j].rating == 0
            && r[j].reviewsCount == 0 && !HasKey(original, NameKey(r[j])))
    ensures forall k :: k in UnmatchedKeys(AnalysedDict(analysed), DictOrder(analysed), original) <==>
      k in AnalysedDict(analysed) && !HasKey(original, k)
    ensures NoDup(UnmatchedKeys(AnalysedDict(analysed), DictOrder(analysed), original))
    ensures IsSubsequence(UnmatchedKeys(AnalysedDict(analysed), DictOrder(analysed), original), DictOrder(analysed))
    ensures |Leftovers(AnalysedDict(analysed), DictOrder(analysed), original)| ==
      |UnmatchedKeys(AnalysedDict(analysed), DictOrder(analysed), original)|
    ensures forall j :: 0 <= j < |Leftovers(AnalysedDict(analysed), DictOrder(analysed), original)| ==>
      var k := UnmatchedKeys(AnalysedDict(analysed), DictOrder(analysed), original)[j];
      && k in AnalysedDict(analysed)
      && Leftovers(AnalysedDict(analysed), DictOrder(analysed), original)[j] == NewCampsite(AnalysedDict(analysed)[k])
      && NameKey(Leftovers(AnalysedDict(analysed), DictOrder(analysed), original)[j]) == k
  {
    var d, order := AnalysedDict(analysed), DictOrder(analysed);
    AnalysedDictKeys(analysed);
    DictOrderKeys(analysed);
    LeftoversShape(d, order, original);
    LeftoversAreUnmatched(d, order, original);
    FilterMembers(order, UnmatchedTest(d, original));
    FilterNoDup(order, UnmatchedTest(d, original));
    FilterIsSubsequence(order, UnmatchedTest(d, original));
  }

  /**
   * Every original record appears once, in order, changed at most in its description,
   * lists, highlights and best-for; after them come fresh records tagged
   * "gemini_analysis", rated 0 with 0 reviews, for entries no original took. With no
   * analysed entries the originals come back unchanged. The first original record with
   * a key takes that key's entry and every other original stays as it was; the records
   * appended are exactly the new records of the unmatched keys, in key order.
   */
  lemma MergedResultsShape(original: seq<Campsite>, analysed: seq<Analysed>)
    ensures var r := MergedResults(original, analysed);
      && (analysed == [] ==> r == original)
      && |original| <= |r| <= |original| + |analysed|
      && (forall j :: 0 <= j < |original| ==>
            r[j] == original[j].(description := r[j].description, features := r[j].features,
                                 facilities := r[j].facilities, highlights := r[j].highlights,
                                 bestFor := r[j].bestFor))
      && (forall j :: |original| <= j < |r| ==>
            (r[j].source == Some("gemini_analysis") && r[j].rating == 0 && r[j].reviewsCount == 0
             && !HasKey(original, NameKey(r[j]))))
    ensures analysed != [] ==> forall j :: 0 <= j < |original| ==>
      (Matched(original, AnalysedDict(analysed), j) ==>
         MergedResults(original, analysed)[j] == MergeRecord(original[j], AnalysedDict(analysed)[NameKey(original[j])]))
      && (!Matched(original, AnalysedDict(analysed), j) ==> MergedResults(original, analysed)[j] == original[j])
    ensures analysed != [] ==>
      MergedResults(original, analysed)[|original|..] == Leftovers(AnalysedDict(analysed), DictOrder(analysed), original)
  {
    if analysed != [] {
      LeftoversOfAnalysed(original, analysed);
      MergedResultsOriginals(original, analysed);
      MergedResultsAdditions(original, analysed);
      MergedResultsOverlay(original, analysed);
      MergedResultsAppended(original, analysed);
    }
  }

  /** Each original record is overlaid with its entry exactly when it is the first with that key. */
  lemma MergedResultsOverlay(original: seq<Campsite>, analysed: seq<Analysed>)
    requires analysed != []
    ensures forall j :: 0 <= j < |original| ==>
      (Matched(original, AnalysedDict(analysed), j) ==>
         MergedResults(original, analysed)[j] == MergeRecord(original[j], AnalysedDict(analysed)[NameKey(original[j])]))
      && (!Matched(original, AnalysedDict(analysed), j) ==> MergedResults(original, analysed)[j] == original[j])
  {
    var d := AnalysedDict(analysed);
    var r := MergedResults(original, analysed);
    assert r == OverlaidAll(original, d) + Leftovers(d, DictOrder(analysed), original);
    forall j | 0 <= j < |original| ensures r[j] == Overlaid(original, d, j) {
    }
  }

  /** After the originals come the leftovers: the new records of the unmatched keys, in key order. */
  lemma MergedResultsAppended(original: seq<Campsite>, analysed: seq<Analysed>)
    requires analysed != []
    ensures |original| <= |MergedResults(original, analysed)|
    ensures MergedResults(original, analysed)[|original|..] == Leftovers(AnalysedDict(analysed), DictOrder(analysed), original)
  {
    var d := AnalysedDict(analysed);
    assert MergedResults(original, analysed) == OverlaidAll(original, d) + Leftovers(d, DictOrder(analysed), original);
  }

  /** The first part of the merge is the originals, each overlaid. */
  lemma MergedResultsOriginals(original: seq<Campsite>, analysed: seq<Analysed>)
    requires analysed != []
    ensures var r := MergedResults(original, analysed);
      && |original| <= |r|
      && forall j :: 0 <= j < |original| ==>
           r[j] == original[j].(description := r[j].description, features := r[j].features,
                                facilities := r[j].facilities, highlights := r[j].highlights,
                                bestFor := r[j].bestFor)
  {
    var d := AnalysedDict(analysed);
    var r := MergedResults(original, analysed);
    var left := Leftovers(d, DictOrder(analysed), original);
    assert r == OverlaidAll(original, d) + left;
    forall j | 0 <= j < |original|
      ensures r[j] == original[j].(description := r[j].description, features := r[j].features,
                                   facilities := r[j].facilities, highlights := r[j].highlights,
                                   bestFor := r[j].bestFor)
    {
      assert r[j] == Overlaid(original, d, j);
    }
  }

  /** The rest of the merge is fresh records for the entries no original took. */
  lemma MergedResultsAdditions(original: seq<Campsite>, analysed: seq<Analysed>)
    requires analysed != []
    ensures var r := MergedResults(original, analysed);
      forall j :: |original| <= j < |r| ==>
        (r[j].source == Some("gemini_analysis") && r[j].rating == 0 && r[j].reviewsCount == 0
         && !HasKey(original, NameKey(r[j])))
  {
    var d := AnalysedDict(analysed);
    var r := MergedResults(original, analysed);
    var left := Leftovers(d, DictOrder(analysed), original);
    LeftoversOfAnalysed(original, analysed);
    assert r == OverlaidAll(original, d) + left;
    forall j | |original| <= j < |r|
      ensures r[j].source == Some("gemini_analysis") && r[j].rating == 0 && r[j].reviewsCount == 0
           && !HasKey(original, NameKey(r[j]))
    {
      assert r[j] == left[j - |original|];
    }
  }

  /** The decoded reply: each key may be missing. */
  datatype AnalysisReply = AnalysisReply(structuredResults: Option<seq<Analysed>>,
                                         featuredCampsites: Option<seq<string>>,
                                         summary: Option<string>)

  datatype SearchAnalysis = SearchAnalysis(structuredResults: seq<Campsite>,
                                           featuredCampsites: seq<string>, summary: string)

  /**
   * `analyze_search_results`. `reply` is the model's answer text (`None` when the call
   * raised); `decode` is `json.loads` followed by the dictionary lookups (`None` on a
   * decode error or a reply that is not a dictionary).
   */
  function AnalyzeSearchResults(hasKey: bool, raw: seq<Campsite>, reply: Option<string>,
                                decode: string -> Option<AnalysisReply>): (r: SearchAnalysis)
    ensures !hasKey || raw == [] || reply == None ==> r == SearchAnalysis(raw, [], "")
    ensures hasKey && raw != [] && reply.Some? && decode(FenceSlice(reply.value)).None? ==>
      r == SearchAnalysis(raw, [], "")
    ensures hasKey && raw != [] && reply.Some? && decode(FenceSlice(reply.value)).Some? ==>
      var parsed := decode(FenceSlice(reply.value)).value;
      && r.structuredResults == MergedResults(raw, parsed.structuredResults.GetOr([]))
      && r.featuredCampsites == parsed.featuredCampsites.GetOr([])
      && r.summary == parsed.summary.GetOr("")
    ensures |r.structuredResults| >= |raw|
  {
    MergedResultsShape(raw, []);
    if !hasKey || raw == [] || reply == None then SearchAnalysis(raw, [], "")
    else match decode(FenceSlice(reply.value))
      case None => SearchAnalysis(raw, [], "")
      case Some(parsed) =>
        MergedResultsShape(raw, parsed.structuredResults.GetOr([]));
        SearchAnalysis(MergedResults(raw, parsed.structuredResults.GetOr([])),
                       parsed.featuredCampsites.GetOr([]), parsed.summary.GetOr(""))
  }
}
