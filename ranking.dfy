/** The post-processing half of `PlagueDetectionModel.predict`: the model's
    probability vector becomes at most three named predictions, ranked by
    confidence. Probabilities are reals; `Math.round` is rounding half up. */
module Ranking {
  import opened JsText
  import opened Seqs

  /** One entry of the list `predict` resolves to; `name` is its `label` field. */
  datatype Prediction = Prediction(name: string, confidence: int)

  /** Probabilities at or below this are dropped. */
  const Threshold: real := 0.1

  /** How many predictions `predict` returns at most (`slice(0, 3)`). */
  const TopCount: nat := 3

  /** `Math.round(x)`: the integer nearest to `x`, halves rounded up. */
  function Round(x: real): (r: int)
    ensures x - 0.5 < r as real <= x + 0.5
  {
    (x + 0.5).Floor
  }

  predicate AboveThreshold(p: real) { p > Threshold }

  /** `Math.round(p * 100)`: the confidence reported for probability `p`.
      Anything above the threshold reports at least 10. */
  function Percent(p: real): (r: int)
    ensures AboveThreshold(p) ==> r >= 10
    ensures p <= 1.0 ==> r <= 100
  {
    Round(p * 100.0)
  }

  /** `this.labels[i] || \`Plaga ${i}\``: the label table's entry, or a
      placeholder naming the index when the table has no (truthy) entry. */
  function LabelFor(labels: seq<string>, i: nat): (r: string)
    ensures r != []
  {
    if i < |labels| && labels[i] != [] then labels[i] else "Plaga " + DecimalDigits(i)
  }

  /** An index the table lists is named by its entry; an index past the
      table gets `"Plaga "` followed by the index in decimal, from which the
      index can be read back. */
  lemma LabelForMeaning(labels: seq<string>, i: nat)
    ensures i < |labels| && labels[i] != [] ==> LabelFor(labels, i) == labels[i]
    ensures i >= |labels| ==>
              var name := LabelFor(labels, i);
              |name| > 6 && name[..6] == "Plaga " && DecimalValue(name[6..]) == i
  {
    if i >= |labels| {
      var name := LabelFor(labels, i);
      assert name[6..] == DecimalDigits(i);
      DecimalRoundTrip(i);
    }
  }

  /** The list the `for` loop of `predict` pushes: one prediction per index
      whose probability is above the threshold, in index order. */
  function Candidates(probs: seq<real>, labels: seq<string>): (r: seq<Prediction>)
    ensures |r| <= |probs|
    ensures forall k :: 0 <= k < |r| ==> r[k].confidence >= 10
  {
    if probs == [] then []
    else
      var i := |probs| - 1;
      Candidates(probs[..i], labels)
        + (if probs[i] > Threshold then [Prediction(LabelFor(labels, i), Percent(probs[i]))] else [])
  }

  /** The k-th candidate is built from the k-th index whose probability is
      above the threshold: its label is that index's label and its confidence
      the rounded percentage. */
  lemma {:induction false} CandidatesSelect(probs: seq<real>, labels: seq<string>)
    ensures var idx := Positions(probs, AboveThreshold);
            |Candidates(probs, labels)| == |idx| &&
            forall k :: 0 <= k < |idx| ==>
              Candidates(probs, labels)[k] == Prediction(LabelFor(labels, idx[k]), Percent(probs[idx[k]]))
  {
    if probs != [] {
      var i := |probs| - 1;
      var prefix := probs[..i];
      CandidatesSelect(prefix, labels);
      var idx := Positions(probs, AboveThreshold);
      var before := Positions(prefix, AboveThreshold);
      var cands := Candidates(probs, labels);
      var earlier := Candidates(prefix, labels);
      assert idx == before + (if AboveThreshold(probs[i]) then [i] else []);
      assert cands == earlier + (if AboveThreshold(probs[i]) then [Prediction(LabelFor(labels, i), Percent(probs[i]))] else []);
      forall k | 0 <= k < |idx|
        ensures cands[k] == Prediction(LabelFor(labels, idx[k]), Percent(probs[idx[k]]))
      {
        if k < |before| {
          assert cands[k] == earlier[k];
          assert prefix[before[k]] == probs[before[k]];
        }
      }
    }
  }

  /** Confidences never increase along `s`. */
  predicate NonIncreasing(s: seq<Prediction>) {
    forall i, j :: 0 <= i < j < |s| ==> s[i].confidence >= s[j].confidence
  }

  /** Insertion of `x` behind every entry of `s` whose confidence is at least
      its own: the step of a stable sort by descending confidence. */
  function InsertDesc(x: Prediction, s: seq<Prediction>): (r: seq<Prediction>)
    ensures |r| == |s| + 1
  {
    if s == [] then [x]
    else if s[0].confidence >= x.confidence then [s[0]] + InsertDesc(x, s[1..])
    else [x] + s
  }

  /** Insertion adds `x` and loses nothing. */
  lemma {:induction false} InsertDescPermutes(x: Prediction, s: seq<Prediction>)
    ensures multiset(InsertDesc(x, s)) == multiset(s) + multiset{x}
  {
    if s != [] && s[0].confidence >= x.confidence {
      InsertDescPermutes(x, s[1..]);
      assert s == [s[0]] + s[1..];
    }
  }

  /** `results.sort((a, b) => b.confidence - a.confidence)`. `Array.prototype.sort`
      is stable, and a stable sort has exactly one possible result, so the
      insertion sort below is that result. */
  function SortDesc(s: seq<Prediction>): (r: seq<Prediction>)
    ensures |r| == |s|
  {
    if s == [] then []
    else
      var last := |s| - 1;
      InsertDesc(s[last], SortDesc(s[..last]))
  }

  /** The sorted list is a permutation of the unsorted one. */
  lemma {:induction false} SortDescPermutes(s: seq<Prediction>)
    ensures multiset(SortDesc(s)) == multiset(s)
  {
    if s != [] {
      var last := |s| - 1;
      var init := s[..last];
      SortDescPermutes(init);
      InsertDescPermutes(s[last], SortDesc(init));
      calc {
        multiset(SortDesc(s));
        multiset(InsertDesc(s[last], SortDesc(init)));
        multiset(SortDesc(init)) + multiset{s[last]};
        multiset(init) + multiset{s[last]};
        { assert s == init + [s[last]]; }
        multiset(s);
      }
    }
  }

  /** The entries of `s` with confidence `c`, in their order in `s`. */
  function WithConfidence(s: seq<Prediction>, c: int): seq<Prediction>
  {
    if s == [] then []
    else (if s[0].confidence == c then [s[0]] else []) + WithConfidence(s[1..], c)
  }

  lemma {:induction false} WithConfidenceAppend(a: seq<Prediction>, b: seq<Prediction>, c: int)
    ensures WithConfidence(a + b, c) == WithConfidence(a, c) + WithConfidence(b, c)
  {
    if a == [] {
      assert a + b == b;
    } else {
      var head := if a[0].confidence == c then [a[0]] else [];
      WithConfidenceAppend(a[1..], b, c);
      WithConfidenceCons(a[0], a[1..] + b, c);
      WithConfidenceCons(a[0], a[1..], c);
      assert a + b == [a[0]] + (a[1..] + b);
      assert a == [a[0]] + a[1..];
      calc {
        WithConfidence(a + b, c);
        head + WithConfidence(a[1..] + b, c);
        head + (WithConfidence(a[1..], c) + WithConfidence(b, c));
        (head + WithConfidence(a[1..], c)) + WithConfidence(b, c);
        WithConfidence(a, c) + WithConfidence(b, c);
      }
    }
  }

  /** Filtering a prefix gives a prefix of the filtered whole. */
  lemma WithConfidencePrefix(s: seq<Prediction>, m: nat, c: int)
    requires m <= |s|
    ensures WithConfidence(s[..m], c) <= WithConfidence(s, c)
  {
    assert s == s[..m] + s[m..];
    WithConfidenceAppend(s[..m], s[m..], c);
  }

  lemma {:induction false} WithConfidenceNone(s: seq<Prediction>, c: int)
    requires forall k :: 0 <= k < |s| ==> s[k].confidence < c
    ensures WithConfidence(s, c) == []
  {
    if s != [] {
      WithConfidenceNone(s[1..], c);
    }
  }

  lemma {:induction false} InsertDescSorted(x: Prediction, s: seq<Prediction>)
    requires NonIncreasing(s)
    ensures NonIncreasing(InsertDesc(x, s))
    ensures s != [] && s[0].confidence >= x.confidence ==> InsertDesc(x, s)[0] == s[0]
  {
    if s == [] {
    } else if s[0].confidence >= x.confidence {
      var t := InsertDesc(x, s[1..]);
      InsertDescSorted(x, s[1..]);
      InsertDescAtMost(x, s[1..], s[0].confidence);
      ConsNonIncreasing(s[0], t);
    } else {
      ConsNonIncreasing(x, s);
    }
  }

  /** Putting in front of an ordered list an entry at least as confident as
      all of it keeps the list ordered. */
  lemma ConsNonIncreasing(h: Prediction, t: seq<Prediction>)
    requires NonIncreasing(t)
    requires forall k :: 0 <= k < |t| ==> t[k].confidence <= h.confidence
    ensures NonIncreasing([h] + t)
  {
    var s := [h] + t;
    forall i, j | 0 <= i < j < |s|
      ensures s[i].confidence >= s[j].confidence
    {
      assert s[j] == t[j - 1];
      if i > 0 {
        assert s[i] == t[i - 1];
      }
    }
  }

  lemma {:induction false} InsertDescAtMost(x: Prediction, s: seq<Prediction>, hi: int)
    requires x.confidence <= hi
    requires forall k :: 0 <= k < |s| ==> s[k].confidence <= hi
    ensures forall k :: 0 <= k < |InsertDesc(x, s)| ==> InsertDesc(x, s)[k].confidence <= hi
  {
    if s != [] && s[0].confidence >= x.confidence {
      InsertDescAtMost(x, s[1..], hi);
    }
  }

  /** A stable insertion keeps the entries of every confidence in order and
      puts `x` after those of equal confidence. */
  lemma {:induction false} InsertDescStable(x: Prediction, s: seq<Prediction>, c: int)
    requires NonIncreasing(s)
    ensures WithConfidence(InsertDesc(x, s), c)
            == WithConfidence(s, c) + (if x.confidence == c then [x] else [])
  {
    var mine := if x.confidence == c then [x] else [];
    if s == [] {
      WithConfidenceCons(x, [], c);
      assert [x] + [] == [x];
    } else if s[0].confidence >= x.confidence {
      var head := if s[0].confidence == c then [s[0]] else [];
      var t := InsertDesc(x, s[1..]);
      NonIncreasingTail(s);
      InsertDescStable(x, s[1..], c);
      WithConfidenceCons(s[0], t, c);
      WithConfidenceCons(s[0], s[1..], c);
      assert s == [s[0]] + s[1..];
      calc {
        WithConfidence(InsertDesc(x, s), c);
        WithConfidence([s[0]] + t, c);
        head + WithConfidence(t, c);
        head + (WithConfidence(s[1..], c) + mine);
        (head + WithConfidence(s[1..], c)) + mine;
        WithConfidence(s, c) + mine;
      }
    } else {
      InsertInFront(x, s, c);
    }
  }

  /** An entry more confident than the whole ordered list goes in front, and
      no entry of the list shares its confidence. */
  lemma InsertInFront(x: Prediction, s: seq<Prediction>, c: int)
    requires s != [] && NonIncreasing(s) && s[0].confidence < x.confidence
    ensures WithConfidence([x] + s, c)
            == WithConfidence(s, c) + (if x.confidence == c then [x] else [])
  {
    WithConfidenceCons(x, s, c);
    if x.confidence == c {
      NonIncreasingTail(s);
      WithConfidenceNone(s, c);
      assert [x] + [] == [] + [x];
    } else {
      assert [] + WithConfidence(s, c) == WithConfidence(s, c) + [];
    }
  }

  lemma WithConfidenceCons(h: Prediction, t: seq<Prediction>, c: int)
    ensures WithConfidence([h] + t, c) == (if h.confidence == c then [h] else []) + WithConfidence(t, c)
  {
    assert ([h] + t)[1..] == t;
  }

  /** The tail of an ordered list is ordered and bounded by its head. */
  lemma NonIncreasingTail(s: seq<Prediction>)
    requires s != [] && NonIncreasing(s)
    ensures NonIncreasing(s[1..])
    ensures forall k :: 0 <= k < |s| ==> s[k].confidence <= s[0].confidence
  {
    var t := s[1..];
    forall i, j | 0 <= i < j < |t|
      ensures t[i].confidence >= t[j].confidence
    {
      assert t[i] == s[i + 1] && t[j] == s[j + 1];
    }
  }

  /** The sorted list is ordered by non-increasing confidence. */
  lemma {:induction false} SortDescSorted(s: seq<Prediction>)
    ensures NonIncreasing(SortDesc(s))
  {
    if s != [] {
      var last := |s| - 1;
      SortDescSorted(s[..last]);
      InsertDescSorted(s[last], SortDesc(s[..last]));
    }
  }

  /** The sort is stable: for every confidence, the entries with that
      confidence keep the order they had before sorting. */
  lemma {:induction false} SortDescStable(s: seq<Prediction>, c: int)
    ensures WithConfidence(SortDesc(s), c) == WithConfidence(s, c)
  {
    if s != [] {
      var last := |s| - 1;
      var init := s[..last];
      var mine := if s[last].confidence == c then [s[last]] else [];
      SortDescStable(init, c);
      SortDescSorted(init);
      InsertDescStable(s[last], SortDesc(init), c);
      assert s == init + [s[last]];
      WithConfidenceAppend(init, [s[last]], c);
      WithConfidenceCons(s[last], [], c);
      assert [s[last]] + [] == [s[last]];
      assert mine + [] == mine;
      calc {
        WithConfidence(SortDesc(s), c);
        WithConfidence(InsertDesc(s[last], SortDesc(init)), c);
        WithConfidence(SortDesc(init), c) + mine;
        WithConfidence(init, c) + mine;
        WithConfidence(init, c) + WithConfidence([s[last]], c);
        WithConfidence(s, c);
      }
    }
  }

  /** Where a stable insertion lands: after the first `j` entries when those
      all have confidence at least `x`'s and the next one has less. */
  lemma {:induction false} InsertDescAt(x: Prediction, s: seq<Prediction>, j: nat)
    requires j <= |s|
    requires forall k :: 0 <= k < j ==> s[k].confidence >= x.confidence
    requires j < |s| ==> s[j].confidence < x.confidence
    ensures forall k {:trigger InsertDesc(x, s)[k]} :: 0 <= k <= |s| ==>
              InsertDesc(x, s)[k] == if k < j then s[k] else if k == j then x else s[k - 1]
  {
    var r := InsertDesc(x, s);
    if j == 0 {
      assert r == [x] + s;
    } else {
      var tail := s[1..];
      assert forall k :: 0 <= k < j - 1 ==> tail[k] == s[k + 1];
      InsertDescAt(x, tail, j - 1);
      var rest := InsertDesc(x, tail);
      assert r == [s[0]] + rest;
      forall k | 0 <= k <= |s|
        ensures r[k] == if k < j then s[k] else if k == j then x else s[k - 1]
      {
        if k > 0 {
          assert r[k] == rest[k - 1];
        }
      }
    }
  }

  /** The whole post-processing: candidates above the threshold, sorted by
      descending confidence, the first three kept. */
  function PostProcess(probs: seq<real>, labels: seq<string>): (r: seq<Prediction>)
    ensures |r| <= TopCount && |r| <= |probs|
  {
    var sorted := SortDesc(Candidates(probs, labels));
    sorted[..Min(TopCount, |sorted|)]
  }

  /** `predict` returns as many entries as there are candidates, up to
      three. */
  lemma PostProcessLength(probs: seq<real>, labels: seq<string>)
    ensures |PostProcess(probs, labels)| == Min(TopCount, |Candidates(probs, labels)|)
  {
    var cands := Candidates(probs, labels);
    SortDescPermutes(cands);
    assert |SortDesc(cands)| == |multiset(SortDesc(cands))| == |cands|;
  }

  /** The returned confidences never increase and are all at least 10. */
  lemma PostProcessOrdered(probs: seq<real>, labels: seq<string>)
    ensures var r := PostProcess(probs, labels);
            NonIncreasing(r) && forall k :: 0 <= k < |r| ==> r[k].confidence >= 10
  {
    var cands := Candidates(probs, labels);
    var sorted := SortDesc(cands);
    SortDescSorted(cands);
    SortDescAtLeast(cands, 10);
    var m := Min(TopCount, |sorted|);
    assert forall k :: 0 <= k < m ==> sorted[..m][k] == sorted[k];
  }

  /** Every returned entry is a candidate, and no candidate that was left
      out has a higher confidence than one that was returned. */
  lemma PostProcessKeepsBest(probs: seq<real>, labels: seq<string>)
    ensures var cands := Candidates(probs, labels);
            var r := PostProcess(probs, labels);
            multiset(r) <= multiset(cands)
            && forall y, k :: y in multiset(cands) - multiset(r) && 0 <= k < |r| ==>
                 y.confidence <= r[k].confidence
  {
    var cands := Candidates(probs, labels);
    var sorted := SortDesc(cands);
    SortDescSorted(cands);
    SortDescPermutes(cands);
    PrefixOfSorted(sorted, Min(TopCount, |sorted|));
  }

  /** Among returned entries of equal confidence the one from the lower index
      comes first: for every confidence, the returned entries with that
      confidence are the first ones of the candidates with it. */
  lemma PostProcessTieOrder(probs: seq<real>, labels: seq<string>, c: int)
    ensures WithConfidence(PostProcess(probs, labels), c) <= WithConfidence(Candidates(probs, labels), c)
  {
    var cands := Candidates(probs, labels);
    var sorted := SortDesc(cands);
    SortDescStable(cands, c);
    WithConfidencePrefix(sorted, Min(TopCount, |sorted|), c);
  }

  /** Sorting keeps a lower bound that every entry meets. */
  lemma {:induction false} SortDescAtLeast(s: seq<Prediction>, lo: int)
    requires forall k :: 0 <= k < |s| ==> s[k].confidence >= lo
    ensures forall k :: 0 <= k < |SortDesc(s)| ==> SortDesc(s)[k].confidence >= lo
  {
    if s != [] {
      var last := |s| - 1;
      SortDescAtLeast(s[..last], lo);
      InsertDescAtLeast(s[last], SortDesc(s[..last]), lo);
    }
  }

  lemma {:induction false} InsertDescAtLeast(x: Prediction, s: seq<Prediction>, lo: int)
    requires x.confidence >= lo
    requires forall k :: 0 <= k < |s| ==> s[k].confidence >= lo
    ensures forall k :: 0 <= k < |InsertDesc(x, s)| ==> InsertDesc(x, s)[k].confidence >= lo
  {
    if s != [] && s[0].confidence >= x.confidence {
      InsertDescAtLeast(x, s[1..], lo);
    }
  }

  /** The first `m` entries of a list sorted by descending confidence are
      among its entries, and every entry not among them has a confidence no
      greater than any of theirs. */
  lemma PrefixOfSorted(sorted: seq<Prediction>, m: nat)
    requires NonIncreasing(sorted) && m <= |sorted|
    ensures NonIncreasing(sorted[..m])
    ensures multiset(sorted[..m]) <= multiset(sorted)
    ensures forall y, k :: y in multiset(sorted) - multiset(sorted[..m]) && 0 <= k < m ==>
              y.confidence <= sorted[k].confidence
  {
    assert sorted == sorted[..m] + sorted[m..];
    assert multiset(sorted) == multiset(sorted[..m]) + multiset(sorted[m..]);
    forall y, k | y in multiset(sorted) - multiset(sorted[..m]) && 0 <= k < m
      ensures y.confidence <= sorted[k].confidence
    {
      assert y in multiset(sorted[m..]);
      var j :| 0 <= j < |sorted[m..]| && sorted[m..][j] == y;
      assert y == sorted[m + j];
    }
  }

  /** The stable sort, in place on the array the loop filled. */
  method SortByConfidence(a: array<Prediction>)
    modifies a
    ensures a[..] == SortDesc(old(a[..]))
  {
    ghost var original := a[..];
    var i := 0;
    while i < a.Length
      invariant 0 <= i <= a.Length
      invariant a[..i] == SortDesc(original[..i])
      invariant forall k :: i <= k < a.Length ==> a[k] == original[k]
    {
      SortDescSorted(original[..i]);
      InsertStep(original, i);
      InsertLast(a, i);
      i := i + 1;
    }
    assert a[..] == a[..a.Length];
    assert original == original[..a.Length];
  }

  /** One pass of the insertion sort: `a[i]` moves left past the entries of
      lower confidence in the sorted prefix `a[..i]`. */
  method InsertLast(a: array<Prediction>, i: nat)
    requires i < a.Length
    requires NonIncreasing(a[..i])
    modifies a
    ensures a[..i + 1] == InsertDesc(old(a[i]), old(a[..i]))
    ensures forall k :: i < k < a.Length ==> a[k] == old(a[k])
  {
    ghost var sorted := a[..i];
    var x := a[i];
    var j := i;
    while j > 0 && a[j - 1].confidence < x.confidence
      invariant 0 <= j <= i
      invariant forall k :: 0 <= k < j ==> a[k] == sorted[k]
      invariant forall k :: j < k <= i ==> a[k] == sorted[k - 1]
      invariant forall k :: j <= k < i ==> sorted[k].confidence < x.confidence
      invariant forall k :: i < k < a.Length ==> a[k] == old(a[k])
    {
      a[j] := a[j - 1];
      j := j - 1;
    }
    a[j] := x;
    InsertedAt(sorted, a[..i + 1], x, j);
  }

  /** The array prefix left by `InsertLast`, read as a sequence: `x` at `j`,
      the sorted entries before it and the shifted entries after it. */
  lemma InsertedAt(sorted: seq<Prediction>, after: seq<Prediction>, x: Prediction, j: nat)
    requires NonIncreasing(sorted)
    requires |after| == |sorted| + 1 && j <= |sorted|
    requires j > 0 ==> sorted[j - 1].confidence >= x.confidence
    requires forall k :: j <= k < |sorted| ==> sorted[k].confidence < x.confidence
    requires forall k :: 0 <= k < j ==> after[k] == sorted[k]
    requires after[j] == x
    requires forall k :: j < k < |after| ==> after[k] == sorted[k - 1]
    ensures after == InsertDesc(x, sorted)
  {
    assert forall k :: 0 <= k < j ==> sorted[k].confidence >= sorted[j - 1].confidence;
    InsertDescAt(x, sorted, j);
    var target := InsertDesc(x, sorted);
    forall k | 0 <= k < |after|
      ensures after[k] == target[k]
    {
    }
  }

  /** Sorting one more element is inserting it into the sorted prefix. */
  lemma InsertStep(s: seq<Prediction>, i: nat)
    requires i < |s|
    ensures SortDesc(s[..i + 1]) == InsertDesc(s[i], SortDesc(s[..i]))
  {
    assert s[..i + 1][..i] == s[..i];
  }
}
