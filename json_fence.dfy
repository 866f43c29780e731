/**
 * The fenced-JSON slicing done before every `json.loads` of a model reply: take the
 * text between "```json" and the next "```" (or the end of the reply when there is no
 * closing fence), stripped; fall back to the whole reply when there is no opening
 * fence or the fenced part is empty. The same seven lines appear in the result
 * analyser, the evaluator and the query analyser.
 */
module JsonFence {
  import opened Text

  const OpenFence: string := "```json"
  const CloseFence: string := "```"

  function FenceSlice(reply: string): (json: string)
  {
    var open := Find(reply, OpenFence, 0);
    if open == -1 then reply
    else
      var start := open + 7;
      var close := Find(reply, CloseFence, start);
      var end := if close == -1 then |reply| else close;
      if start > 0 && end > start then Strip(reply[start..end]) else reply
  }

  /** Without an opening fence the whole reply is parsed. */
  lemma FenceSliceWithoutFence(reply: string)
    requires !Contains(reply, OpenFence)
    ensures FenceSlice(reply) == reply
  {
    ContainsIffOccurs(reply, OpenFence);
  }

  /**
   * Otherwise the parsed text is the whole reply or the stripped piece right after the
   * first opening fence, a piece that holds no fence.
   */
  lemma FenceSlicePiece(reply: string)
    ensures var json := FenceSlice(reply);
      json == reply ||
      exists i, j :: 7 <= i < j <= |reply| && OccursAt(reply, OpenFence, i - 7)
        && json == Strip(reply[i..j]) && !Contains(reply[i..j], CloseFence)
  {
    var open := Find(reply, OpenFence, 0);
    if open != -1 {
      var start := open + 7;
      var close := Find(reply, CloseFence, start);
      var end := if close == -1 then |reply| else close;
      if end > start {
        var piece := reply[start..end];
        forall k ensures !OccursAt(piece, CloseFence, k) {
          if 0 <= k && k + 3 <= |piece| {
            SliceOfSlice(reply, start, end, k, k + 3);
            assert !OccursAt(reply, CloseFence, start + k);
          }
        }
        ContainsIffOccurs(piece, CloseFence);
        assert FenceSlice(reply) == Strip(piece);
        assert OccursAt(reply, OpenFence, start - 7);
      }
    }
  }

  /** A fenced body without backquotes is found again, stripped. */
  lemma FenceSliceOfFenced(body: string, rest: string)
    requires body != [] && '`' !in body
    ensures FenceSlice(OpenFence + body + CloseFence + rest) == Strip(body)
  {
    var reply := OpenFence + body + CloseFence + rest;
    assert OccursAt(reply, OpenFence, 0);
    var close := 7 + |body|;
    assert reply[close..close + 3] == CloseFence;
    assert OccursAt(reply, CloseFence, close);
    forall j | 7 <= j < close ensures reply[j] != '`' {
      assert reply[j] == body[j - 7];
    }
    NoFenceIn(reply, 7, close);
    assert Find(reply, OpenFence, 0) == 0;
    assert reply[7..close] == body;
    SliceAfterLeadingFence(reply, close);
  }

  /**
   * With no closing fence the slice runs to the end of the reply (rather than falling
   * back to the whole reply).
   */
  lemma FenceSliceUnclosed(body: string)
    requires body != [] && '`' !in body
    ensures FenceSlice(OpenFence + body) == Strip(body)
  {
    var reply := OpenFence + body;
    assert OccursAt(reply, OpenFence, 0);
    forall j | 7 <= j < |reply| ensures reply[j] != '`' {
      assert reply[j] == body[j - 7];
    }
    NoFenceIn(reply, 7, |reply|);
    assert Find(reply, OpenFence, 0) == 0;
    assert reply[7..|reply|] == body;
    SliceAfterLeadingFence(reply, |reply|);
  }

  /** A reply that opens with a fence is sliced from just after it up to `end`. */
  lemma SliceAfterLeadingFence(reply: string, end: int)
    requires Find(reply, OpenFence, 0) == 0 && 7 < end <= |reply|
    requires Find(reply, CloseFence, 7) == (if end == |reply| then -1 else end)
    ensures FenceSlice(reply) == Strip(reply[7..end])
  {
    var close := Find(reply, CloseFence, 7);
    var stop := if close == -1 then |reply| else close;
    assert stop == end;
  }

  /** A stretch without backquotes holds no fence, and `Find` skips it. */
  lemma NoFenceIn(reply: string, from: nat, to: nat)
    requires from <= to <= |reply|
    requires forall j :: from <= j < to ==> reply[j] != '`'
    ensures forall j :: from <= j < to ==> !OccursAt(reply, CloseFence, j)
    ensures to == |reply| ==> Find(reply, CloseFence, from) == -1
    ensures OccursAt(reply, CloseFence, to) ==> Find(reply, CloseFence, from) == to
  {
    forall j | from <= j < to ensures !OccursAt(reply, CloseFence, j) {
      if j + 3 <= |reply| {
        assert reply[j..j + 3][0] == reply[j];
      }
    }
  }
}
