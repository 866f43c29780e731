/**
 * The query analyser (`utils/query_analyzer.py`): the rule-based fallback that pulls a
 * place, feature words and facility words out of a free-text query, and the rules by
 * which the model's reading of the query is accepted or replaced by that fallback.
 */
module QueryAnalyzer {
  import opened Wrappers
  import opened Text
  import opened JsonFence

  /**
   * The places the fallback looks for, in the order it tries them: the prefectures
   * (without their 県/府/都 suffix) and then five landmark areas. The list is
   * written in four consecutive pieces.
   */
  const LocationKeywords: seq<string> := EastPrefectures + CentralPrefectures + WestPrefectures + Landmarks

  const EastPrefectures: seq<string> := [
    "北海道", "青森", "岩手", "宮城", "秋田", "山形", "福島", "茨城", "栃木", "群馬",
    "埼玉", "千葉", "東京", "神奈川", "新潟", "富山"]
  const CentralPrefectures: seq<string> := [
    "石川", "福井", "山梨", "長野", "岐阜", "静岡", "愛知", "三重", "滋賀", "京都",
    "大阪", "兵庫", "奈良", "和歌山", "鳥取", "島根"]
  const WestPrefectures: seq<string> := [
    "岡山", "広島", "山口", "徳島", "香川", "愛媛", "高知", "福岡", "佐賀", "長崎",
    "熊本", "大分", "宮崎", "鹿児島", "沖縄"]
  const Landmarks: seq<string> := ["富士山", "八ヶ岳", "日本アルプス", "尾瀬", "軽井沢"]

  const FeatureKeywords: seq<string> := [
    "景色", "眺め", "見える", "静か", "人気", "穴場", "子供", "ファミリー", "カップル",
    "初心者", "ソロ", "ソロキャンプ", "グループ", "川遊び", "海", "山", "湖", "森"]

  const FacilityKeywords: seq<string> := [
    "トイレ", "シャワー", "温泉", "風呂", "電源", "Wi-Fi", "炊事場", "売店", "ドッグラン",
    "遊具", "バーベキュー"]

  const CampSuffix: string := "キャンプ場"

  /** Weights 0..10 per category. */
  datatype Priorities = Priorities(location: int, features: int, facilities: int)

  datatype QueryAnalysis = QueryAnalysis(structuredQuery: string, location: string,
                                         features: seq<string>, facilities: seq<string>,
                                         priorities: Priorities)

  /** The search query: the user's text, with " キャンプ場" added when it lacks the word. */
  function StructuredQuery(query: string): (q: string)
    ensures Contains(query, CampSuffix) ==> q == query
    ensures !Contains(query, CampSuffix) ==> q == query + " " + CampSuffix
  {
    if Contains(query, CampSuffix) then query else query + " " + CampSuffix
  }

  /** The fallback's result from what its three scans found. */
  function Analysis(query: string, location: string, features: seq<string>, facilities: seq<string>): QueryAnalysis
  {
    QueryAnalysis(StructuredQuery(query), location, features, facilities,
                  Priorities(if location != "" then 5 else 0,
                             if features != [] then 5 else 0,
                             if facilities != [] then 5 else 0))
  }

  /** What `basic_query_analysis` returns. */
  function BasicAnalysis(query: string): QueryAnalysis
  {
    Analysis(query, FirstHitOr(LocationKeywords, query), Hits(FeatureKeywords, query),
             Hits(FacilityKeywords, query))
  }

  /** `basic_query_analysis`: a scan with `break` for the place, then two collecting scans. */
  method BasicQueryAnalysis(query: string) returns (analysis: QueryAnalysis)
    ensures analysis == BasicAnalysis(query)
  {
    var location := FirstKeywordIn(LocationKeywords, query);
    var features := KeywordsIn(FeatureKeywords, query);
    var facilities := KeywordsIn(FacilityKeywords, query);
    analysis := Analysis(query, location, features, facilities);
  }

  /** `for keyword in vocab: if keyword in query: found = keyword; break`. */
  method FirstKeywordIn(vocab: seq<string>, query: string) returns (found: string)
    ensures found == FirstHitOr(vocab, query)
  {
    found := "";
    var i := 0;
    while i < |vocab|
      invariant 0 <= i <= FirstHit(vocab, query)
      invariant found == ""
    {
      if Contains(query, vocab[i]) {
        found := vocab[i];
        break;
      }
      i := i + 1;
    }
  }

  /** `for keyword in vocab: if keyword in query: found.append(keyword)`. */
  method KeywordsIn(vocab: seq<string>, query: string) returns (found: seq<string>)
    ensures found == Hits(vocab, query)
  {
    found := [];
    var j := 0;
    while j < |vocab|
      invariant 0 <= j <= |vocab|
      invariant found == Hits(vocab[..j], query)
    {
      HitsSnoc(vocab, query, j);
      if Contains(query, vocab[j]) {
        found := found + [vocab[j]];
      }
      j := j + 1;
    }
    assert vocab[..j] == vocab;
  }

  /**
   * The place is the first location keyword, in list order, found in the query, or ""
   * when none is found.
   */
  lemma BasicAnalysisLocation(query: string)
    ensures var a := BasicAnalysis(query);
      && ((exists i :: 0 <= i < |LocationKeywords| && Contains(query, LocationKeywords[i])) ==>
            exists i :: 0 <= i < |LocationKeywords| && LocationKeywords[i] == a.location
              && Contains(query, a.location) && forall j :: 0 <= j < i ==> !Contains(query, LocationKeywords[j]))
      && ((forall i :: 0 <= i < |LocationKeywords| ==> !Contains(query, LocationKeywords[i])) ==> a.location == "")
  {
    FirstHitOrShape(LocationKeywords, query);
  }

  /**
   * The structured query is the query itself exactly when it already names キャンプ場;
   * it always names it, so structuring twice adds nothing more.
   */
  lemma StructuredQueryShape(query: string)
    ensures StructuredQuery(query) == query <==> Contains(query, CampSuffix)
    ensures Contains(StructuredQuery(query), CampSuffix)
    ensures StructuredQuery(StructuredQuery(query)) == StructuredQuery(query)
  {
    if !Contains(query, CampSuffix) {
      var q := query + " " + CampSuffix;
      assert |q| > |query|;
      assert q[|query| + 1..|query| + 1 + |CampSuffix|] == CampSuffix;
      ContainsAt(q, CampSuffix, |query| + 1);
    }
  }



  /**
   * No word of `vocab` between `from` and `to` occurs in `text` when each has its first
   * or its last character missing from `text`.
   */
  lemma NoneIn(text: string, vocab: seq<string>, from: int, to: int)
    requires 0 <= from <= to <= |vocab|
    requires forall i :: from <= i < to ==>
      vocab[i] != "" && (vocab[i][0] !in text || vocab[i][|vocab[i]| - 1] !in text)
    ensures forall i :: from <= i < to ==> !Contains(text, vocab[i])
  {
    forall i | from <= i < to ensures !Contains(text, vocab[i]) {
      if vocab[i][0] !in text {
        NotContainsByFirst(text, vocab[i]);
      } else {
        NotContainsByLast(text, vocab[i]);
      }
    }
  }

  const Fuji: string := "富士山が見える静かなキャンプ場"

  /**
   * For "富士山が見える静かなキャンプ場" the fallback finds 富士山 (no prefecture name
   * occurs in it), the features 見える, 静か and 山 among others, no facility, and
   * keeps the query as it is.
   */
  lemma FujiWorkedCase()
    ensures var a := BasicAnalysis(Fuji);
      && a.location == "富士山" && a.facilities == []
      && "見える" in a.features && "静か" in a.features && "山" in a.features
      && a.structuredQuery == Fuji && a.priorities == Priorities(5, 5, 0)
  {
    FujiLocation();
    FujiFeatures();
    FujiFacilities();
    FujiNamesCampsites();
  }

  lemma FujiNamesCampsites()
    ensures Contains(Fuji, CampSuffix)
  {
    assert OccursAt(Fuji, CampSuffix, 10);
    ContainsAt(Fuji, CampSuffix, 10);
  }

  /**
   * Every prefecture name has its first or its last character missing from the query,
   * except 富山, whose 富 is never followed by 山 there.
   */
  lemma FujiMissesEast()
    ensures forall j :: 0 <= j < 16 ==> !Contains(Fuji, EastPrefectures[j])
  {
    FujiMissesEastHead();
    FujiMissesEastTail();
  }

  lemma FujiMissesEastHead()
    ensures forall j :: 0 <= j < 8 ==> !Contains(Fuji, EastPrefectures[j])
  {
    NoneIn(Fuji, EastPrefectures, 0, 8);
  }

  lemma FujiMissesEastTail()
    ensures forall j :: 8 <= j < 16 ==> !Contains(Fuji, EastPrefectures[j])
  {
    NoneIn(Fuji, EastPrefectures, 8, 15);
    FujiMissesToyama();
  }

  /** 富 opens the query and is followed by 士, so 富山 never occurs. */
  lemma FujiMissesToyama()
    ensures !Contains(Fuji, EastPrefectures[15])
  {
    var tail := Fuji[1..];
    assert '富' !in tail;
    forall i | 0 <= i < |Fuji| - 1 ensures Fuji[i] != '富' || Fuji[i + 1] != '山' {
      if i > 0 {
        assert Fuji[i] == tail[i - 1];
      }
    }
    NotContainsByPair(Fuji, EastPrefectures[15]);
  }

  lemma FujiMissesCentral()
    ensures forall j :: 0 <= j < 16 ==> !Contains(Fuji, CentralPrefectures[j])
  {
    FujiMissesCentralHead();
    FujiMissesCentralTail();
  }

  lemma FujiMissesCentralHead()
    ensures forall j :: 0 <= j < 8 ==> !Contains(Fuji, CentralPrefectures[j])
  {
    NoneIn(Fuji, CentralPrefectures, 0, 8);
  }

  lemma FujiMissesCentralTail()
    ensures forall j :: 8 <= j < 16 ==> !Contains(Fuji, CentralPrefectures[j])
  {
    NoneIn(Fuji, CentralPrefectures, 8, 16);
  }

  lemma FujiMissesWest()
    ensures forall j :: 0 <= j < 15 ==> !Contains(Fuji, WestPrefectures[j])
  {
    FujiMissesWestHead();
    FujiMissesWestTail();
  }

  lemma FujiMissesWestHead()
    ensures forall j :: 0 <= j < 8 ==> !Contains(Fuji, WestPrefectures[j])
  {
    NoneIn(Fuji, WestPrefectures, 0, 8);
  }

  lemma FujiMissesWestTail()
    ensures forall j :: 8 <= j < 15 ==> !Contains(Fuji, WestPrefectures[j])
  {
    NoneIn(Fuji, WestPrefectures, 8, 15);
  }

  lemma FujiMissesPrefectures()
    ensures forall j :: 0 <= j < 47 ==> !Contains(Fuji, LocationKeywords[j])
  {
    FujiMissesEast();
    FujiMissesCentral();
    FujiMissesWest();
    forall j | 0 <= j < 47 ensures !Contains(Fuji, LocationKeywords[j]) {
      if j < 16 {
        assert LocationKeywords[j] == EastPrefectures[j];
      } else if j < 32 {
        assert LocationKeywords[j] == CentralPrefectures[j - 16];
      } else {
        assert LocationKeywords[j] == WestPrefectures[j - 32];
      }
    }
  }

  lemma FujiLocation()
    ensures FirstHitOr(LocationKeywords, Fuji) == "富士山"
  {
    FujiMissesPrefectures();
    assert LocationKeywords[47] == "富士山";
    assert OccursAt(Fuji, "富士山", 0);
    ContainsAt(Fuji, "富士山", 0);
    FirstHitAt(LocationKeywords, Fuji, 47);
  }

  lemma FujiFeatures()
    ensures var f := Hits(FeatureKeywords, Fuji);
      "見える" in f && "静か" in f && "山" in f
  {
    FujiSeesView();
    FujiIsQuiet();
    FujiHasMountain();
  }

  lemma FujiSeesView()
    ensures "見える" in Hits(FeatureKeywords, Fuji)
  {
    HitAt(FeatureKeywords, Fuji, 2, 4);
  }

  lemma FujiIsQuiet()
    ensures "静か" in Hits(FeatureKeywords, Fuji)
  {
    HitAt(FeatureKeywords, Fuji, 3, 7);
  }

  lemma FujiHasMountain()
    ensures "山" in Hits(FeatureKeywords, Fuji)
  {
    HitAt(FeatureKeywords, Fuji, 15, 2);
  }

  lemma FujiFacilities()
    ensures Hits(FacilityKeywords, Fuji) == []
  {
    NoneIn(Fuji, FacilityKeywords, 0, |FacilityKeywords|);
    HitsNone(FacilityKeywords, Fuji);
  }

  /** The model's decoded reply: a dictionary, a list, or any other JSON value. */
  datatype Json = Object(analysis: QueryAnalysis) | Array(items: seq<Json>) | Other

  /**
   * How a decoded reply is accepted: a dictionary as it is, a list by its first
   * element when that is a dictionary; anything else, or a decode error, is refused.
   */
  function Coerce(parsed: Option<Json>): (r: Option<QueryAnalysis>)
    ensures parsed.Some? && parsed.value.Object? ==> r == Some(parsed.value.analysis)
    ensures (parsed.Some? && parsed.value.Array? && parsed.value.items != [] && parsed.value.items[0].Object?)
      ==> r == Some(parsed.value.items[0].analysis)
    ensures r.Some? <==> (parsed.Some? && (parsed.value.Object? || (parsed.value.Array? && parsed.value.items != [] && parsed.value.items[0].Object?)))
  {
    match parsed
    case None => None
    case Some(Object(analysis)) => Some(analysis)
    case Some(Array(items)) => if items != [] && items[0].Object? then Some(items[0].analysis) else None
    case Some(Other) => None
  }

  /**
   * `analyze_query`. `reply` is the answer text (`None` when the call raised) and
   * `decode` stands for `json.loads` (`None` on a decode error). Without a key, on a
   * failed call and on a refused reply the fallback analysis is returned.
   */
  function AnalyzeQuery(hasKey: bool, query: string, reply: Option<string>,
                        decode: string -> Option<Json>): (a: QueryAnalysis)
    ensures !hasKey || reply == None ==> a == BasicAnalysis(query)
    ensures (hasKey && reply.Some? && Coerce(decode(FenceSlice(reply.value))).None?) ==> a == BasicAnalysis(query)
    ensures (hasKey && reply.Some? && decode(FenceSlice(reply.value)).Some? && decode(FenceSlice(reply.value)).value.Object?)
      ==> a == decode(FenceSlice(reply.value)).value.analysis
  {
    if !hasKey || reply == None then BasicAnalysis(query)
    else Coerce(decode(FenceSlice(reply.value))).GetOr(BasicAnalysis(query))
  }

  /**
   * A reply that fences a dictionary is taken as the analysis: the fenced body is sliced
   * out, decoded, and wins over the fallback.
   */
  lemma FencedDictionaryWins(query: string, body: string, rest: string, decode: string -> Option<Json>,
                             analysis: QueryAnalysis)
    requires body != [] && '`' !in body
    requires decode(Strip(body)) == Some(Object(analysis))
    ensures AnalyzeQuery(true, query, Some(OpenFence + body + CloseFence + rest), decode) == analysis
  {
    FenceSliceOfFenced(body, rest);
  }
}
