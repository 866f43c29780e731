/**
 * String and list primitives with the meaning Python gives them: substring
 * membership (`k in text`), `str.find`, `str.strip`, `str.replace(p, "")`,
 * `split(c)[0]`, `", ".join`, slicing `[:n]`, and the filter / find-first
 * scans that the keyword extractors are built from.
 */
module Text {

  /** True when `p` is a prefix of `s` (`s.startswith(p)`). */
  predicate StartsWith(s: string, p: string) {
    |p| <= |s| && s[..|p|] == p
  }

  /** `k` occurs in `text` starting at position `i`. */
  predicate OccursAt(text: string, k: string, i: int) {
    0 <= i && i + |k| <= |text| && text[i..i + |k|] == k
  }

  /** Python's `k in text` on strings: `k` occurs in `text` as a contiguous block. */
  predicate Contains(text: string, k: string)
    decreases |text|
  {
    StartsWith(text, k) || (|text| > 0 && Contains(text[1..], k))
  }

  /** `Contains` is exactly "occurs at some position". */
  lemma {:induction false} ContainsIffOccurs(text: string, k: string)
    ensures Contains(text, k) <==> exists i :: OccursAt(text, k, i)
    decreases |text|
  {
    if |text| == 0 {
      if Contains(text, k) {
        assert OccursAt(text, k, 0);
      }
      if exists i :: OccursAt(text, k, i) {
        assert StartsWith(text, k);
      }
    } else {
      ContainsIffOccurs(text[1..], k);
      if Contains(text, k) {
        if StartsWith(text, k) {
          assert OccursAt(text, k, 0);
        } else {
          var i :| OccursAt(text[1..], k, i);
          assert text[i + 1..i + 1 + |k|] == text[1..][i..i + |k|];
          assert OccursAt(text, k, i + 1);
        }
      }
      if exists i :: OccursAt(text, k, i) {
        var i :| OccursAt(text, k, i);
        if i == 0 {
          assert StartsWith(text, k);
        } else {
          assert text[1..][i - 1..i - 1 + |k|] == text[i..i + |k|];
          assert OccursAt(text[1..], k, i - 1);
        }
      }
    }
  }

  /** An occurrence at a known position witnesses `Contains`. */
  lemma ContainsAt(text: string, k: string, i: int)
    requires OccursAt(text, k, i)
    ensures Contains(text, k)
  {
    ContainsIffOccurs(text, k);
  }

  /** A word of two or more characters whose first two never appear side by side in `text` does not occur in it. */
  lemma NotContainsByPair(text: string, k: string)
    requires |k| >= 2
    requires forall i :: 0 <= i < |text| - 1 ==> text[i] != k[0] || text[i + 1] != k[1]
    ensures !Contains(text, k)
  {
    ContainsIffOccurs(text, k);
    forall i ensures !OccursAt(text, k, i) {
      if 0 <= i && i + |k| <= |text| {
        assert text[i..i + |k|][0] == text[i] && text[i..i + |k|][1] == text[i + 1];
      }
    }
  }

  /** A word whose first character is not in `text` does not occur in it. */
  lemma NotContainsByFirst(text: string, k: string)
    requires |k| >= 1 && k[0] !in text
    ensures !Contains(text, k)
  {
    ContainsIffOccurs(text, k);
  }

  /** Nor does a word whose last character is not in `text`. */
  lemma NotContainsByLast(text: string, k: string)
    requires |k| >= 1 && k[|k| - 1] !in text
    ensures !Contains(text, k)
  {
    ContainsIffOccurs(text, k);
    forall i ensures !OccursAt(text, k, i) {
      if 0 <= i && i + |k| <= |text| {
        assert text[i..i + |k|][|k| - 1] == text[i + |k| - 1];
        assert text[i + |k| - 1] in text;
      }
    }
  }

  /** ASCII lower-casing of one character. */
  function LowerChar(c: char): char {
    if 'A' <= c <= 'Z' then (c as int + 32) as char else c
  }

  /** `s.lower()`, restricted to the ASCII letters. */
  function Lower(s: string): (r: string)
    ensures |r| == |s|
    ensures forall i :: 0 <= i < |r| ==> !('A' <= r[i] <= 'Z')
    ensures forall i :: 0 <= i < |r| ==> r[i] == s[i] || ('A' <= s[i] <= 'Z' && r[i] as int == s[i] as int + 32)
  {
    seq(|s|, i requires 0 <= i < |s| => LowerChar(s[i]))
  }

  /** Lower-casing twice is lower-casing once. */
  lemma LowerIdempotent(s: string)
    ensures Lower(Lower(s)) == Lower(s)
  {
  }

  /**
   * `text.find(pat, start)`: the least position at or after `start` where `pat`
   * occurs, or -1.
   */
  function Find(text: string, pat: string, start: nat): (r: int)
    ensures r == -1 || (start <= r && OccursAt(text, pat, r))
    ensures r != -1 ==> forall j :: start <= j < r ==> !OccursAt(text, pat, j)
    ensures r == -1 ==> forall j :: start <= j ==> !OccursAt(text, pat, j)
    decreases |text| - start
  {
    if start + |pat| > |text| then -1
    else if text[start..start + |pat|] == pat then start
    else Find(text, pat, start + 1)
  }

  /** `find` on a text without the pattern gives -1. */
  lemma FindAbsent(text: string, pat: string)
    requires !Contains(text, pat)
    ensures Find(text, pat, 0) == -1
  {
    ContainsIffOccurs(text, pat);
  }

  /** `find` gives the first occurrence at or after `start`. */
  lemma FindFirst(text: string, pat: string, start: nat, p: int)
    requires start <= p && OccursAt(text, pat, p)
    requires forall j :: start <= j < p ==> !OccursAt(text, pat, j)
    ensures Find(text, pat, start) == p
  {
  }

  /** The characters Python's `str.strip()` removes (those for which `isspace()` holds). */
  predicate IsSpace(c: char) {
    c == ' ' || ('\t' <= c <= '\r') || ('\U{1C}' <= c <= '\U{1F}') || c == '\U{85}' || c == '\U{A0}'
    || c == '\U{1680}' || ('\U{2000}' <= c <= '\U{200A}') || c == '\U{2028}' || c == '\U{2029}'
    || c == '\U{202F}' || c == '\U{205F}' || c == '\U{3000}'
  }

  predicate AllSpace(s: string) {
    forall i :: 0 <= i < |s| ==> IsSpace(s[i])
  }

  /** The end of the run of white space starting at `i` (the scan of `lstrip`). */
  function SpaceEnd(s: string, i: nat): (n: nat)
    requires i <= |s|
    ensures i <= n <= |s|
    ensures forall k :: i <= k < n ==> IsSpace(s[k])
    ensures n < |s| ==> !IsSpace(s[n])
    decreases |s| - i
  {
    if i < |s| && IsSpace(s[i]) then SpaceEnd(s, i + 1) else i
  }

  /** The start of the run of white space ending at `j`, not going below `lo` (the scan of `rstrip`). */
  function SpaceStart(s: string, lo: nat, j: nat): (m: nat)
    requires lo <= j <= |s|
    ensures lo <= m <= j
    ensures forall k :: m <= k < j ==> IsSpace(s[k])
    ensures lo < m ==> !IsSpace(s[m - 1])
    decreases j - lo
  {
    if lo < j && IsSpace(s[j - 1]) then SpaceStart(s, lo, j - 1) else j
  }

  /** `s.strip()`: `s` is `r` with only white space around it, and `r` neither starts nor ends with white space. */
  function Strip(s: string): (r: string)
    ensures exists i, j :: 0 <= i <= j <= |s| && r == s[i..j] && AllSpace(s[..i]) && AllSpace(s[j..])
    ensures r == [] || (!IsSpace(r[0]) && !IsSpace(r[|r| - 1]))
    ensures forall c :: c in r ==> c in s
  {
    var i := SpaceEnd(s, 0);
    var j := SpaceStart(s, i, |s|);
    assert AllSpace(s[..i]) by {
      forall k | 0 <= k < i ensures IsSpace(s[..i][k]) { assert s[..i][k] == s[k]; }
    }
    assert AllSpace(s[j..]) by {
      forall k | 0 <= k < |s| - j ensures IsSpace(s[j..][k]) { assert s[j..][k] == s[j + k]; }
    }
    forall c | c in s[i..j] ensures c in s {
      var k :| 0 <= k < j - i && s[i..j][k] == c;
      assert s[i + k] == c;
    }
    s[i..j]
  }

  /** Stripping a string that neither starts nor ends with white space gives it back. */
  lemma StripUnpadded(s: string)
    requires s == [] || (!IsSpace(s[0]) && !IsSpace(s[|s| - 1]))
    ensures Strip(s) == s
  {
    if s != [] {
      assert SpaceEnd(s, 0) == 0;
      assert SpaceStart(s, 0, |s|) == |s|;
    }
  }

  /** `s.replace(pat, "")`: every non-overlapping occurrence of `pat`, scanned left to right, is deleted. */
  function RemoveAll(s: string, pat: string): (r: string)
    requires pat != []
    ensures |r| <= |s|
    ensures forall c :: c in r ==> c in s
    ensures !Contains(s, pat) ==> r == s
    decreases |s|
  {
    if |s| < |pat| then s
    else if s[..|pat|] == pat then RemoveAll(s[|pat|..], pat)
    else [s[0]] + RemoveAll(s[1..], pat)
  }

  /** `s.split(c)[0]`: the part of `s` before the first `c` (all of `s` when there is none). */
  function BeforeFirst(s: string, c: char): (r: string)
    ensures StartsWith(s, r)
    ensures c !in r
    ensures forall d :: d in r ==> d in s
    ensures |r| < |s| ==> s[|r|] == c
    ensures c !in s ==> r == s
    decreases |s|
  {
    if s == [] then []
    else if s[0] == c then []
    else [s[0]] + BeforeFirst(s[1..], c)
  }

  /** `sep.join(xs)`. */
  function Join(sep: string, xs: seq<string>): string
    decreases |xs|
  {
    if |xs| == 0 then ""
    else if |xs| == 1 then xs[0]
    else xs[0] + sep + Join(sep, xs[1..])
  }

  /** `[f(x) for x in s]`. */
  function MapSeq<T, U>(s: seq<T>, f: T -> U): (r: seq<U>)
    ensures |r| == |s|
    decreases |s|
  {
    if s == [] then [] else MapSeq(s[..|s| - 1], f) + [f(s[|s| - 1])]
  }

  /** Mapping one more element appends its image. */
  lemma MapSeqSnoc<T, U>(s: seq<T>, x: T, f: T -> U)
    ensures MapSeq(s + [x], f) == MapSeq(s, f) + [f(x)]
  {
    assert (s + [x])[..|s|] == s;
  }

  /** A non-empty list is its front and its last element. */
  lemma InitLast<T>(s: seq<T>)
    requires s != []
    ensures s == s[..|s| - 1] + [s[|s| - 1]]
  {
  }

  /** A prefix one longer is the prefix and the next element. */
  lemma PrefixSnoc<T>(s: seq<T>, i: int)
    requires 0 <= i < |s|
    ensures s[..i + 1] == s[..i] + [s[i]]
  {
  }

  /** The mapped list holds, position by position, the image of the input element. */
  lemma {:induction false} MapSeqAt<T, U>(s: seq<T>, f: T -> U)
    ensures forall j :: 0 <= j < |s| ==> MapSeq(s, f)[j] == f(s[j])
    decreases |s|
  {
    if s != [] {
      var init := s[..|s| - 1];
      MapSeqAt(init, f);
      assert forall j :: 0 <= j < |init| ==> init[j] == s[j];
    }
  }

  /** A slice of a slice is a slice of the whole. */
  lemma SliceOfSlice<T>(s: seq<T>, lo: int, hi: int, i: int, j: int)
    requires 0 <= lo <= hi <= |s| && 0 <= i <= j <= hi - lo
    ensures s[lo..hi][i..j] == s[lo + i..lo + j]
  {
    var a, b := s[lo..hi][i..j], s[lo + i..lo + j];
    assert |a| == |b|;
    forall m | 0 <= m < |a| ensures a[m] == b[m] {
      assert a[m] == s[lo..hi][i + m] == s[lo + i + m];
    }
  }

  /** The image of a member is a member of the image. */
  lemma MapSeqMember<T, U>(s: seq<T>, f: T -> U, x: T)
    requires x in s
    ensures f(x) in MapSeq(s, f)
  {
    MapSeqAt(s, f);
    var j :| 0 <= j < |s| && s[j] == x;
    assert MapSeq(s, f)[j] == f(x);
  }

  /** Python's `s[:n]` for `n >= 0`. */
  function Take<T>(s: seq<T>, n: nat): (r: seq<T>)
    ensures |r| == if n < |s| then n else |s|
    ensures r == s[..|r|]
  {
    if n < |s| then s[..n] else s
  }

  predicate NoDup<T(==)>(s: seq<T>) {
    forall i, j :: 0 <= i < j < |s| ==> s[i] != s[j]
  }

  /** `a` is `b` with some elements left out (greedy matching decides this exactly). */
  predicate IsSubsequence<T(==)>(a: seq<T>, b: seq<T>)
    decreases |b|
  {
    a == [] || (b != [] && if a[0] == b[0] then IsSubsequence(a[1..], b[1..]) else IsSubsequence(a, b[1..]))
  }

  /** The elements of `s` that satisfy `p`, in their order: `[x for x in s if p(x)]`. */
  function Filter<T(!new)>(s: seq<T>, p: T -> bool): (r: seq<T>)
    ensures |r| <= |s|
    decreases |s|
  {
    if s == [] then [] else (if p(s[0]) then [s[0]] else []) + Filter(s[1..], p)
  }

  /** An element is kept by `Filter` exactly when it is in `s` and passes `p`. */
  lemma {:induction false} FilterMembers<T(!new)>(s: seq<T>, p: T -> bool)
    ensures forall x :: x in Filter(s, p) <==> x in s && p(x)
    decreases |s|
  {
    if s != [] {
      FilterMembers(s[1..], p);
      assert s == [s[0]] + s[1..];
    }
  }

  lemma {:induction false} FilterIsSubsequence<T(!new)>(s: seq<T>, p: T -> bool)
    ensures IsSubsequence(Filter(s, p), s)
    decreases |s|
  {
    if s != [] {
      FilterIsSubsequence(s[1..], p);
      if p(s[0]) {
        assert Filter(s, p) == [s[0]] + Filter(s[1..], p);
        assert Filter(s, p)[1..] == Filter(s[1..], p);
      } else {
        assert Filter(s, p) == Filter(s[1..], p);
        SubsequenceSkip(Filter(s[1..], p), s);
      }
    }
  }

  /** A subsequence of the tail of `b` is a subsequence of `b`. */
  lemma {:induction false} SubsequenceSkip<T>(a: seq<T>, b: seq<T>)
    requires b != [] && IsSubsequence(a, b[1..])
    ensures IsSubsequence(a, b)
    decreases |b|, 1
  {
    if a != [] && a[0] == b[0] {
      SubsequenceDropFirst(a, b[1..]);
    }
  }

  /** Leaving out the first element of a subsequence keeps it a subsequence. */
  lemma {:induction false} SubsequenceDropFirst<T>(a: seq<T>, c: seq<T>)
    requires a != [] && IsSubsequence(a, c)
    ensures IsSubsequence(a[1..], c)
    decreases |c| + 1, 0
  {
    assert c != [];
    if a[0] == c[0] {
      SubsequenceSkip(a[1..], c);
    } else {
      SubsequenceDropFirst(a, c[1..]);
      SubsequenceSkip(a[1..], c);
    }
  }

  /** Growing both sides by one element, or only the larger one, keeps the relation. */
  lemma {:induction false} SubsequenceSnoc<T>(a: seq<T>, b: seq<T>, x: T, keep: bool)
    requires IsSubsequence(a, b)
    ensures IsSubsequence(a + (if keep then [x] else []), b + [x])
    decreases |b|
  {
    var a' := a + (if keep then [x] else []);
    if a == [] {
      if keep {
        SubsequenceOfLast(b, x);
        assert a' == [x];
      }
    } else {
      assert b != [];
      assert (b + [x])[1..] == b[1..] + [x];
      assert a'[0] == a[0];
      if a[0] == b[0] {
        SubsequenceSnoc(a[1..], b[1..], x, keep);
        assert a'[1..] == a[1..] + (if keep then [x] else []);
      } else {
        SubsequenceSnoc(a, b[1..], x, keep);
      }
    }
  }

  lemma {:induction false} SubsequenceOfLast<T>(b: seq<T>, x: T)
    ensures IsSubsequence([x], b + [x])
    decreases |b|
  {
    if b != [] {
      assert (b + [x])[1..] == b[1..] + [x];
      SubsequenceOfLast(b[1..], x);
      if b[0] == x {
        assert [x][1..] == [];
      }
    } else {
      assert [x][1..] == [];
    }
  }

  /** A prefix of a subsequence is a subsequence. */
  lemma {:induction false} SubsequencePrefix<T>(a: seq<T>, b: seq<T>, n: nat)
    requires IsSubsequence(a, b) && n <= |a|
    ensures IsSubsequence(a[..n], b)
    decreases |b|
  {
    if n > 0 {
      assert b != [];
      if a[0] == b[0] {
        SubsequencePrefix(a[1..], b[1..], n - 1);
        assert a[..n][1..] == a[1..][..n - 1];
      } else {
        SubsequencePrefix(a, b[1..], n);
      }
    }
  }

  /** Two strings framed by the same head and tail are equal exactly when the framed strings are. */
  lemma SameFrame(head: string, x: string, y: string, tail: string)
    requires head + x + tail == head + y + tail
    ensures x == y
  {
    var u := head + x + tail;
    assert |x| == |y|;
    assert x == u[|head|..|head| + |x|];
    assert y == u[|head|..|head| + |y|];
  }

  lemma {:induction false} FilterNoDup<T(!new)>(s: seq<T>, p: T -> bool)
    ensures NoDup(s) ==> NoDup(Filter(s, p))
    decreases |s|
  {
    if s != [] && NoDup(s) {
      assert NoDup(s[1..]);
      FilterNoDup(s[1..], p);
      FilterMembers(s[1..], p);
      if p(s[0]) {
        var r := Filter(s, p);
        assert r == [s[0]] + Filter(s[1..], p);
        assert s[0] !in s[1..];
        assert s[0] !in Filter(s[1..], p);
      }
    }
  }

  /** The vocabulary words that occur in `text`, in vocabulary order. */
  function Hits(vocab: seq<string>, text: string): (r: seq<string>)
    ensures forall w :: w in r <==> w in vocab && Contains(text, w)
    ensures IsSubsequence(r, vocab)
    ensures NoDup(vocab) ==> NoDup(r)
  {
    var r := Filter(vocab, w => Contains(text, w));
    FilterMembers(vocab, w => Contains(text, w));
    FilterIsSubsequence(vocab, w => Contains(text, w));
    FilterNoDup(vocab, w => Contains(text, w));
    r
  }

  /** A word of the vocabulary seen at a known position of the text is a hit. */
  lemma HitAt(vocab: seq<string>, text: string, k: int, at: int)
    requires 0 <= k < |vocab| && OccursAt(text, vocab[k], at)
    ensures vocab[k] in Hits(vocab, text)
  {
    ContainsAt(text, vocab[k], at);
  }

  /** One more step of the scan `for w in vocab: if w in text: hits.append(w)`. */
  lemma HitsSnoc(vocab: seq<string>, text: string, j: int)
    requires 0 <= j < |vocab|
    ensures Hits(vocab[..j + 1], text) == Hits(vocab[..j], text) + (if Contains(text, vocab[j]) then [vocab[j]] else [])
  {
    assert vocab[..j + 1] == vocab[..j] + [vocab[j]];
    FilterConcat(vocab[..j], [vocab[j]], w => Contains(text, w));
  }

  /** Scanning two vocabularies one after the other finds the hits of each in turn. */
  lemma HitsConcat(a: seq<string>, b: seq<string>, text: string)
    ensures Hits(a + b, text) == Hits(a, text) + Hits(b, text)
  {
    FilterConcat(a, b, w => Contains(text, w));
  }

  /** A vocabulary none of whose words occurs gives no hits. */
  lemma HitsNone(vocab: seq<string>, text: string)
    requires forall i :: 0 <= i < |vocab| ==> !Contains(text, vocab[i])
    ensures Hits(vocab, text) == []
  {
    FilterNoneKept(vocab, w => Contains(text, w));
  }

  /** The index of the first vocabulary word that occurs in `text` (`|vocab|` when none does). */
  function FirstHit(vocab: seq<string>, text: string): (i: nat)
    ensures i <= |vocab|
    ensures i < |vocab| ==> Contains(text, vocab[i])
    ensures forall j :: 0 <= j < i ==> !Contains(text, vocab[j])
    decreases |vocab|
  {
    if vocab == [] then 0
    else if Contains(text, vocab[0]) then 0
    else 1 + FirstHit(vocab[1..], text)
  }

  /** The first hit is the position of a word found before which no word is found. */
  lemma FirstHitAt(vocab: seq<string>, text: string, i: int)
    requires 0 <= i < |vocab| && Contains(text, vocab[i])
    requires forall j :: 0 <= j < i ==> !Contains(text, vocab[j])
    ensures FirstHit(vocab, text) == i
  {
    var h := FirstHit(vocab, text);
    assert h < |vocab| ==> Contains(text, vocab[h]);
  }

  /** The first vocabulary word that occurs in `text`, or "" (a loop that returns on its first hit). */
  function FirstHitOr(vocab: seq<string>, text: string): (r: string)
    ensures r == "" || (r in vocab && Contains(text, r))
    ensures r != "" ==> exists i :: 0 <= i < |vocab| && vocab[i] == r && forall j :: 0 <= j < i ==> !Contains(text, vocab[j])
    ensures (forall w :: w in vocab && w != "" ==> !Contains(text, w)) ==> r == ""
  {
    var i := FirstHit(vocab, text);
    if i < |vocab| then vocab[i] else ""
  }

  /** In a vocabulary without the empty word, some word occurring gives a non-empty first hit. */
  lemma FirstHitOrFound(vocab: seq<string>, text: string)
    requires "" !in vocab
    ensures (exists w :: w in vocab && Contains(text, w)) ==> FirstHitOr(vocab, text) != ""
  {
    if exists w :: w in vocab && Contains(text, w) {
      var w :| w in vocab && Contains(text, w);
      var i :| 0 <= i < |vocab| && vocab[i] == w;
      var h := FirstHit(vocab, text);
      assert h <= i;
      assert vocab[h] in vocab;
    }
  }

  /**
   * When some word occurs, the first hit is the earliest word that occurs; when none
   * does, there is no hit.
   */
  lemma FirstHitOrShape(vocab: seq<string>, text: string)
    ensures (exists i :: 0 <= i < |vocab| && Contains(text, vocab[i])) ==>
      exists i :: 0 <= i < |vocab| && vocab[i] == FirstHitOr(vocab, text) && Contains(text, vocab[i])
        && forall j :: 0 <= j < i ==> !Contains(text, vocab[j])
    ensures (forall i :: 0 <= i < |vocab| ==> !Contains(text, vocab[i])) ==> FirstHitOr(vocab, text) == ""
  {
    var h := FirstHit(vocab, text);
    if exists i :: 0 <= i < |vocab| && Contains(text, vocab[i]) {
      assert h < |vocab|;
      assert vocab[h] == FirstHitOr(vocab, text);
    }
  }

  /**
   * The loop `for x in items: if x not in base: base.append(x)`: `base` extended by the
   * items it lacks, each once, in the order they first appear in `items`.
   */
  function AppendMissing<T(==,!new)>(base: seq<T>, items: seq<T>): (r: seq<T>)
    ensures |base| <= |r| && r[..|base|] == base
    decreases |items|
  {
    if items == [] then base
    else
      var next := if items[0] in base then base else base + [items[0]];
      var r := AppendMissing(next, items[1..]);
      assert r[..|base|] == next[..|base|];
      r
  }

  /**
   * What `AppendMissing` adds: exactly the items `base` lacks, none of them twice, so a
   * list without duplicates stays without duplicates.
   */
  lemma AppendMissingMembers<T(!new)>(base: seq<T>, items: seq<T>)
    ensures forall x :: x in AppendMissing(base, items) <==> x in base || x in items
    ensures forall k :: |base| <= k < |AppendMissing(base, items)| ==> AppendMissing(base, items)[k] !in base
    ensures NoDup(AppendMissing(base, items)[|base|..])
    ensures NoDup(base) ==> NoDup(AppendMissing(base, items))
  {
    AppendMissingHas(base, items);
    AppendMissingFresh(base, items);
    if NoDup(base) {
      AppendMissingNoDup(base, items);
    }
  }

  lemma {:induction false} AppendMissingHas<T(!new)>(base: seq<T>, items: seq<T>)
    ensures forall x :: x in AppendMissing(base, items) <==> x in base || x in items
    decreases |items|
  {
    if items != [] {
      var next := if items[0] in base then base else base + [items[0]];
      AppendMissingHas(next, items[1..]);
      assert items == [items[0]] + items[1..];
    }
  }

  /** The added part holds no element of `base` and nothing twice. */
  lemma {:induction false} AppendMissingFresh<T(!new)>(base: seq<T>, items: seq<T>)
    ensures forall k :: |base| <= k < |AppendMissing(base, items)| ==> AppendMissing(base, items)[k] !in base
    ensures NoDup(AppendMissing(base, items)[|base|..])
    decreases |items|
  {
    if items != [] {
      var next := if items[0] in base then base else base + [items[0]];
      AppendMissingFresh(next, items[1..]);
      var r := AppendMissing(next, items[1..]);
      assert r == AppendMissing(base, items);
      assert r[..|next|] == next;
      if items[0] !in base {
        var added := r[|next|..];
        assert next[|base|] == items[0];
        forall j | 0 <= j < |added| ensures added[j] != items[0] {
          assert added[j] == r[|next| + j];
        }
        assert r[|base|..] == [items[0]] + added;
        forall k | |base| <= k < |r| ensures r[k] !in base {
          if k > |base| {
            assert r[k] == added[k - |next|];
          }
        }
      } else {
        assert r[|base|..] == r[|next|..];
      }
    }
  }

  lemma AppendMissingNoDup<T(!new)>(base: seq<T>, items: seq<T>)
    requires NoDup(base)
    ensures NoDup(AppendMissing(base, items))
  {
    var r := AppendMissing(base, items);
    AppendMissingFresh(base, items);
    var added := r[|base|..];
    forall i, j | 0 <= i < j < |r| ensures r[i] != r[j] {
      if j < |base| {
        assert r[i] == base[i] && r[j] == base[j];
      } else if i < |base| {
        assert r[i] == base[i];
      } else {
        assert r[i] == added[i - |base|] && r[j] == added[j - |base|];
      }
    }
  }

  /** Filtering by a test no element passes keeps nothing. */
  lemma {:induction false} FilterNoneKept<T(!new)>(s: seq<T>, p: T -> bool)
    requires forall i :: 0 <= i < |s| ==> !p(s[i])
    ensures Filter(s, p) == []
    decreases |s|
  {
    if s != [] {
      assert forall i :: 0 <= i < |s[1..]| ==> s[1..][i] == s[i + 1];
      FilterNoneKept(s[1..], p);
    }
  }

  /** Filtering by a test every element passes changes nothing. */
  lemma {:induction false} FilterAllPass<T(!new)>(s: seq<T>, p: T -> bool)
    requires forall x :: x in s ==> p(x)
    ensures Filter(s, p) == s
    decreases |s|
  {
    if s != [] {
      FilterAllPass(s[1..], p);
    }
  }

  lemma {:induction false} FilterConcat<T(!new)>(a: seq<T>, b: seq<T>, p: T -> bool)
    ensures Filter(a + b, p) == Filter(a, p) + Filter(b, p)
    decreases |a|
  {
    if a != [] {
      assert (a + b)[0] == a[0];
      assert (a + b)[1..] == a[1..] + b;
      FilterConcat(a[1..], b, p);
    } else {
      assert a + b == b;
    }
  }

  lemma {:induction false} AppendMissingConcat<T(!new)>(base: seq<T>, a: seq<T>, b: seq<T>)
    ensures AppendMissing(base, a + b) == AppendMissing(AppendMissing(base, a), b)
    decreases |a|
  {
    if a == [] {
      assert a + b == b;
    } else {
      assert (a + b)[0] == a[0];
      assert (a + b)[1..] == a[1..] + b;
      var next := if a[0] in base then base else base + [a[0]];
      AppendMissingConcat(next, a[1..], b);
    }
  }

  /** One decimal digit. */
  function DigitChar(d: nat): char
    requires d < 10
  {
    "0123456789"[d]
  }

  function DigitValue(c: char): nat {
    if '0' <= c <= '9' then c as int - '0' as int else 0
  }

  /** `str(n)` for a natural number. */
  function NatToString(n: nat): (r: string)
    ensures |r| >= 1
    ensures forall i :: 0 <= i < |r| ==> '0' <= r[i] <= '9'
    decreases n
  {
    if n < 10 then [DigitChar(n)] else NatToString(n / 10) + [DigitChar(n % 10)]
  }

  /** `str(n)` for an integer. */
  function IntToString(n: int): string {
    if n < 0 then "-" + NatToString(-n) else NatToString(n)
  }

  /** `int(s)` for a string of decimal digits. */
  function ParseNat(s: string): nat
    decreases |s|
  {
    if s == [] then 0 else ParseNat(s[..|s| - 1]) * 10 + DigitValue(s[|s| - 1])
  }

  /** Printing a number in decimal and reading it back gives the number. */
  lemma {:induction false} ParseNatToString(n: nat)
    ensures ParseNat(NatToString(n)) == n
    decreases n
  {
    DigitValueOfChar(n % 10);
    if n >= 10 {
      ParseNatToString(n / 10);
      var s := NatToString(n);
      assert s[..|s| - 1] == NatToString(n / 10);
    } else {
      assert [DigitChar(n)][..0] == [];
    }
  }

  /** Each digit character reads back as its digit. */
  lemma DigitValueOfChar(d: nat)
    requires d < 10
    ensures DigitValue(DigitChar(d)) == d
  {
  }
}
