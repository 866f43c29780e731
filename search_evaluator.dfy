/**
 * The evaluator (`utils/search_evaluator.py`): the model scores the first records of a
 * result list against the query, the scores are folded into each record's `score`,
 * that head is re-sorted by score and the unevaluated tail is appended as it was.
 * The model's reply is a parameter: the answer text, and a decoder standing for
 * `json.loads` with the `.get` defaults of each entry.
 */
module SearchEvaluator {
  import opened Wrappers
  import opened Text
  import opened Ordering
  import opened Records
  import opened JsonFence

  /** One entry of the model's evaluation list, with its `.get` defaults already applied. */
  datatype Eval = Eval(index: int, matchScore: int, recommendation: string, mismatch: string)

  /**
   * One pass of the loop over the evaluation list. The score is kept in tenths, so
   * `round(score + match_score / 10, 1)` is exact for an integral match score.
   */
  function ApplyEval(head: seq<Campsite>, e: Eval): (r: seq<Campsite>)
    ensures |r| == |head|
    ensures !(0 <= e.index < |head|) ==> r == head
  {
    if 0 <= e.index < |head| then
      var site := head[e.index];
      head[e.index := site.(matchScore := Some(e.matchScore),
                            score := Some(ScoreOf(site) + e.matchScore),
                            recommendationReason := e.recommendation,
                            mismatchReason := e.mismatch)]
    else head
  }

  /** The whole loop. */
  function ApplyEvals(head: seq<Campsite>, evals: seq<Eval>): (r: seq<Campsite>)
    ensures |r| == |head|
  {
    if |evals| == 0 then head else ApplyEval(ApplyEvals(head, evals[..|evals|-1]), evals[|evals|-1])
  }

  /** The sorted, evaluated head followed by the records beyond `maxResults`. */
  function Evaluated(campsites: seq<Campsite>, evals: seq<Eval>, maxResults: nat): seq<Campsite>
  {
    SortDesc(ApplyEvals(Take(campsites, maxResults), evals), ScoreOf)
      + (if |campsites| > maxResults then campsites[maxResults..] else [])
  }

  /**
   * What `evaluate_search_results` returns: the records unchanged without a key, an
   * answer or a decodable evaluation list, and otherwise the evaluated list, which
   * holds as many records as were given.
   */
  function Evaluation(hasKey: bool, campsites: seq<Campsite>, reply: Option<string>,
                      decode: string -> Option<seq<Eval>>, maxResults: nat): (r: seq<Campsite>)
    ensures |r| == |campsites|
    ensures !hasKey || campsites == [] || reply == None ==> r == campsites
    ensures hasKey && reply.Some? && decode(FenceSlice(reply.value)) == None ==> r == campsites
  {
    if !hasKey || campsites == [] || reply == None then campsites
    else match decode(FenceSlice(reply.value))
         case None => campsites
         case Some(evals) => Evaluated(campsites, evals, maxResults)
  }

  /**
   * `evaluate_search_results`. `reply` is the answer text (`None` when the model call
   * raised) and `decode` returns `None` on a decode error.
   */
  method EvaluateSearchResults(hasKey: bool, campsites: seq<Campsite>, reply: Option<string>,
                               decode: string -> Option<seq<Eval>>, maxResults: nat)
    returns (result: seq<Campsite>)
    ensures result == Evaluation(hasKey, campsites, reply, decode, maxResults)
    ensures hasKey && campsites != [] && reply.Some? && decode(FenceSlice(reply.value)).Some? ==>
      result == Evaluated(campsites, decode(FenceSlice(reply.value)).value, maxResults)
  {
    if !hasKey || campsites == [] {
      return campsites;
    }
    var target := Take(campsites, maxResults);
    if reply == None {
      return campsites;
    }
    var jsonText := FenceSlice(reply.value);
    var decoded := decode(jsonText);
    if decoded == None {
      return campsites;
    }
    var evals := decoded.value;
    var k := 0;
    while k < |evals|
      invariant 0 <= k <= |evals|
      invariant target == ApplyEvals(Take(campsites, maxResults), evals[..k])
    {
      assert evals[..k + 1][..k] == evals[..k];
      var e := evals[k];
      if 0 <= e.index < |target| {
        var site := target[e.index];
        var originalScore := ScoreOf(site);
        target := target[e.index := site.(matchScore := Some(e.matchScore),
                                          score := Some(originalScore + e.matchScore),
                                          recommendationReason := e.recommendation,
                                          mismatchReason := e.mismatch)];
      }
      k := k + 1;
    }
    assert evals[..k] == evals;
    result := SortDesc(target, ScoreOf);
    if |campsites| > maxResults {
      result := result + campsites[maxResults..];
    }
  }

  /** Whether some evaluation names position `j`. */
  predicate Targets(evals: seq<Eval>, j: int) {
    exists k :: 0 <= k < |evals| && evals[k].index == j
  }

  /** The sum of the match scores given to position `j`. */
  function SumMatches(evals: seq<Eval>, j: int): int
  {
    if |evals| == 0 then 0
    else SumMatches(evals[..|evals|-1], j) + (if evals[|evals|-1].index == j then evals[|evals|-1].matchScore else 0)
  }

  /** The record differs from `site` at most in the four evaluation fields. */
  predicate SameButEvaluation(updated: Campsite, site: Campsite) {
    updated == site.(score := updated.score, matchScore := updated.matchScore,
                     recommendationReason := updated.recommendationReason,
                     mismatchReason := updated.mismatchReason)
  }

  /**
   * After the loop, a record no evaluation names is untouched; a named one has gained
   * the sum of its match scores and keeps every field but the evaluation ones.
   */
  lemma {:induction false} ApplyEvalsEffect(head: seq<Campsite>, evals: seq<Eval>)
    ensures var r := ApplyEvals(head, evals);
      forall j :: 0 <= j < |head| ==>
        SameButEvaluation(r[j], head[j])
        && (!Targets(evals, j) ==> r[j] == head[j])
        && (Targets(evals, j) ==> r[j].score == Some(ScoreOf(head[j]) + SumMatches(evals, j)))
    decreases |evals|
  {
    if |evals| > 0 {
      var init, e := evals[..|evals|-1], evals[|evals|-1];
      ApplyEvalsEffect(head, init);
      var before, r := ApplyEvals(head, init), ApplyEvals(head, evals);
      forall j | 0 <= j < |head|
        ensures SameButEvaluation(r[j], head[j])
        ensures !Targets(evals, j) ==> r[j] == head[j]
        ensures Targets(evals, j) ==> r[j].score == Some(ScoreOf(head[j]) + SumMatches(evals, j))
      {
        if e.index == j {
          assert evals[|evals| - 1].index == j;
          if !Targets(init, j) {
            SumMatchesUntargeted(init, j);
          }
          assert ScoreOf(before[j]) == ScoreOf(head[j]) + SumMatches(init, j);
        } else {
          assert r[j] == before[j];
          if Targets(evals, j) {
            var k :| 0 <= k < |evals| && evals[k].index == j;
            assert init[k].index == j;
          } else {
            forall k | 0 <= k < |init| ensures init[k].index != j {
              assert init[k] == evals[k];
            }
          }
        }
      }
    }
  }

  /** Sum of the match scores when no evaluation targets the position. */
  lemma {:induction false} SumMatchesUntargeted(evals: seq<Eval>, j: int)
    requires !Targets(evals, j)
    ensures SumMatches(evals, j) == 0
    decreases |evals|
  {
    if |evals| > 0 {
      var init := evals[..|evals|-1];
      assert !Targets(init, j) by {
        forall k | 0 <= k < |init| ensures init[k].index != j {
          assert init[k] == evals[k];
        }
      }
      SumMatchesUntargeted(init, j);
      assert evals[|evals| - 1].index != j;
    }
  }

  /** Raising one match score, all else fixed, never lowers any record's sum. */
  lemma {:induction false} SumMatchesMonotone(evals: seq<Eval>, k: int, higher: int, j: int)
    requires 0 <= k < |evals| && higher >= evals[k].matchScore
    ensures SumMatches(evals[k := evals[k].(matchScore := higher)], j) >= SumMatches(evals, j)
    decreases |evals|
  {
    var raised := evals[k := evals[k].(matchScore := higher)];
    var init := evals[..|evals|-1];
    if k == |evals| - 1 {
      assert raised[..|raised|-1] == init;
    } else {
      assert raised[..|raised|-1] == init[k := init[k].(matchScore := higher)];
      SumMatchesMonotone(init, k, higher, j);
    }
  }

  /** Hence raising a match score never lowers the new score of the record it names. */
  lemma RaisingMatchNeverLowersScore(head: seq<Campsite>, evals: seq<Eval>, k: int, higher: int)
    requires 0 <= k < |evals| && 0 <= evals[k].index < |head| && higher >= evals[k].matchScore
    ensures var j := evals[k].index;
      ScoreOf(ApplyEvals(head, evals[k := evals[k].(matchScore := higher)])[j])
        >= ScoreOf(ApplyEvals(head, evals)[j])
  {
    var j := evals[k].index;
    var raised := evals[k := evals[k].(matchScore := higher)];
    ApplyEvalsEffect(head, evals);
    ApplyEvalsEffect(head, raised);
    assert raised[k].index == j;
    SumMatchesMonotone(evals, k, higher, j);
  }

  /**
   * The output is as long as the input; its first part is the evaluated head in
   * descending score order, holding exactly the evaluated records; the records beyond
   * `maxResults` follow in their original order.
   */
  lemma EvaluatedShape(campsites: seq<Campsite>, evals: seq<Eval>, maxResults: nat)
    ensures var r, head := Evaluated(campsites, evals, maxResults), Take(campsites, maxResults);
      var applied := ApplyEvals(head, evals);
      && |r| == |campsites|
      && SortedDesc(r[..|head|], ScoreOf)
      && multiset(r[..|head|]) == multiset(applied)
      && r[|head|..] == campsites[|head|..]
      && (forall j :: 0 <= j < |head| ==> SameButEvaluation(applied[j], campsites[j]))
  {
    var head := Take(campsites, maxResults);
    var sorted := SortDesc(ApplyEvals(head, evals), ScoreOf);
    var r := Evaluated(campsites, evals, maxResults);
    assert r[..|head|] == sorted;
    ApplyEvalsEffect(head, evals);
  }

  /** With no evaluations at all the head is only re-sorted by its existing scores. */
  lemma EvaluatedWithoutEvals(campsites: seq<Campsite>, maxResults: nat)
    requires SortedDesc(Take(campsites, maxResults), ScoreOf)
    ensures Evaluated(campsites, [], maxResults) == campsites
  {
    SortDescOfSorted(Take(campsites, maxResults), ScoreOf);
  }

  /**
   * `generate_search_summary`: `""` without a key or records, or when the model call
   * fails; otherwise the model's text, for which only the first `maxResults` records
   * are passed on.
   */
  function GenerateSearchSummary(hasKey: bool, campsites: seq<Campsite>, maxResults: nat,
                                 summarise: seq<Campsite> -> Option<string>): (summary: string)
    ensures !hasKey || campsites == [] ==> summary == ""
    ensures hasKey && campsites != [] && summarise(Take(campsites, maxResults)).None? ==> summary == ""
  {
    if !hasKey || campsites == [] then ""
    else summarise(Take(campsites, maxResults)).GetOr("")
  }

  /** Records past the first `maxResults` never influence the summary. */
  lemma SummaryReadsOnlyHead(hasKey: bool, a: seq<Campsite>, b: seq<Campsite>, maxResults: nat,
                             summarise: seq<Campsite> -> Option<string>)
    requires maxResults > 0 && |a| >= maxResults && |b| >= maxResults && a[..maxResults] == b[..maxResults]
    ensures GenerateSearchSummary(hasKey, a, maxResults, summarise) == GenerateSearchSummary(hasKey, b, maxResults, summarise)
  {
    assert a != [] && b != [];
  }
}
