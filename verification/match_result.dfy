/** Scoring of one feature-matching run (`match_result_t`).

    A result holds the number of reference descriptors and the matches found
    for them. From these it derives a match ratio, a total distance, the
    "good" matches under a distance threshold with their ratio and distance,
    and two comparators that rank results by ratio first and good-match
    distance second. Single-precision floats are modelled as reals.
 */
module MatchResults {

  /** `uint32_t`, the type of `num_ref_descriptors`. */
  type uint32 = x: int | 0 <= x < 0x1_0000_0000

  /** `match_ratio_compare_offset`: ratios closer than this count as similar. */
  const MatchRatioCompareOffset: real := 0.005

  /** `good_match_threshold`: the default distance bound of a good match. */
  const GoodMatchThreshold: real := 30.0

  /** `std::numeric_limits<float>::max()`, (2 - 2^-23) * 2^127. */
  const FloatMax: real := 340282346638528859811704183484516925440.0

  /** `cv::DMatch`: indices of the matched descriptors and their distance. */
  datatype DMatch = DMatch(queryIdx: int, trainIdx: int, imgIdx: int, distance: real)

  /** `match_result_t` without the keypoint vectors, which no scoring reads. */
  datatype MatchResult = MatchResult(numRefDescriptors: uint32, matches: seq<DMatch>)

  // ---------------------------------------------------------------------------
  // Reference definitions over sequences of matches
  // ---------------------------------------------------------------------------

  /** Every distance is non-negative (as for any norm-based descriptor distance). */
  predicate NonNegativeDistances(ms: seq<DMatch>) {
    forall i :: 0 <= i < |ms| ==> ms[i].distance >= 0.0
  }

  /** Sum of the distances: the sum of all but the last plus the last, which
      is the order in which the C++ `+=` loops accumulate. With non-negative
      distances the sum is non-negative and at least every single distance. */
  function SumDistances(ms: seq<DMatch>): (sum: real)
    ensures NonNegativeDistances(ms) ==> sum >= 0.0
    ensures NonNegativeDistances(ms) ==> forall i :: 0 <= i < |ms| ==> ms[i].distance <= sum
  {
    if |ms| == 0 then 0.0
    else
      var init := ms[..|ms| - 1];
      assert forall i :: 0 <= i < |init| ==> init[i] == ms[i];
      SumDistances(init) + ms[|ms| - 1].distance
  }

  /** The matches whose distance is strictly below `threshold`, in their
      original order; never more than there were. */
  function GoodMatches(ms: seq<DMatch>, threshold: real): (gm: seq<DMatch>)
    ensures |gm| <= |ms|
  {
    if |ms| == 0 then []
    else
      var kept := GoodMatches(ms[..|ms| - 1], threshold);
      var last := ms[|ms| - 1];
      if last.distance < threshold then kept + [last] else kept
  }

  /** A match is good exactly when it is one of the matches and its distance
      is below the threshold. */
  lemma {:induction false} GoodMatchesMembers(ms: seq<DMatch>, threshold: real)
    ensures forall m :: m in GoodMatches(ms, threshold) <==> m in ms && m.distance < threshold
  {
    if |ms| > 0 {
      var init := ms[..|ms| - 1];
      GoodMatchesMembers(init, threshold);
      assert ms == init + [ms[|ms| - 1]];
    }
  }

  // ---------------------------------------------------------------------------
  // The member functions of match_result_t
  // ---------------------------------------------------------------------------

  /** Count per reference descriptor, or the -1 sentinel without any. */
  function PerDescriptor(count: nat, n: uint32): (ratio: real)
    ensures ratio == -1.0 <==> n == 0
    ensures n > 0 ==> ratio >= 0.0 && ratio * n as real == count as real
  {
    if n == 0 then -1.0 else count as real / n as real
  }

  /** `match_ratio()`: matches per reference descriptor, or -1 without any. */
  function MatchRatio(r: MatchResult): (ratio: real)
    ensures ratio == -1.0 <==> r.numRefDescriptors == 0
    ensures r.numRefDescriptors > 0 ==>
      ratio >= 0.0 && ratio * r.numRefDescriptors as real == |r.matches| as real
  {
    PerDescriptor(|r.matches|, r.numRefDescriptors)
  }

  /** `distance()`: total distance of all matches, or the float maximum when
      there are none; with non-negative distances never below any single one. */
  function Distance(r: MatchResult): (d: real)
    ensures |r.matches| == 0 ==> d == FloatMax
    ensures NonNegativeDistances(r.matches) ==>
      forall i :: 0 <= i < |r.matches| ==> r.matches[i].distance <= d
  {
    if |r.matches| == 0 then FloatMax else SumDistances(r.matches)
  }

  /** `good_matches_ratio(threshold)`: good matches per reference descriptor,
      or -1 without any; never above the plain match ratio. */
  function GoodMatchesRatio(r: MatchResult, threshold: real): (ratio: real)
    ensures ratio == -1.0 <==> r.numRefDescriptors == 0
    ensures r.numRefDescriptors > 0 ==> 0.0 <= ratio <= MatchRatio(r)
  {
    var good := |GoodMatches(r.matches, threshold)|;
    PerDescriptorMonotone(good, |r.matches|, r.numRefDescriptors);
    PerDescriptor(good, r.numRefDescriptors)
  }

  /** With descriptors, the good-match ratio times their number is the
      number of good matches. */
  lemma GoodMatchesRatioCounts(r: MatchResult, threshold: real)
    requires r.numRefDescriptors > 0
    ensures GoodMatchesRatio(r, threshold) * r.numRefDescriptors as real
         == |GoodMatches(r.matches, threshold)| as real
  {
    var good := |GoodMatches(r.matches, threshold)|;
    assert GoodMatchesRatio(r, threshold) == PerDescriptor(good, r.numRefDescriptors);
  }

  /** `good_matches_distance(threshold)`: total distance of the good matches,
      zero when none pass (unlike `distance()`, which has a sentinel). */
  function GoodMatchesDistance(r: MatchResult, threshold: real): (d: real)
    ensures (forall i :: 0 <= i < |r.matches| ==> r.matches[i].distance >= threshold) ==> d == 0.0
    ensures NonNegativeDistances(r.matches) ==> 0.0 <= d <= Distance(r)
  {
    var gm := GoodMatches(r.matches, threshold);
    GoodMatchesSumWithin(r.matches, threshold);
    GoodMatchesEmpty(r.matches, threshold);
    SumDistances(gm)
  }

  /** With non-negative distances the good matches sum to a non-negative
      value no larger than `distance()`, sentinel included. */
  lemma GoodMatchesSumWithin(ms: seq<DMatch>, threshold: real)
    ensures NonNegativeDistances(ms) ==>
      0.0 <= SumDistances(GoodMatches(ms, threshold))
          <= if |ms| == 0 then FloatMax else SumDistances(ms)
  {
    if NonNegativeDistances(ms) {
      NonNegativeGoodMatches(ms, threshold);
      if |ms| > 0 {
        GoodMatchesSumBound(ms, threshold);
      }
    }
  }

  /** More matches never give a lower per-descriptor ratio. */
  lemma PerDescriptorMonotone(a: nat, b: nat, n: uint32)
    requires a <= b
    ensures PerDescriptor(a, n) <= PerDescriptor(b, n)
  {
    if n > 0 {
      assert a as real / n as real <= b as real / n as real;
    }
  }

  // ---------------------------------------------------------------------------
  // The C++ loops
  // ---------------------------------------------------------------------------

  /** The C++ loop in `distance()`: a running `+=` over the matches. */
  method ComputeDistance(r: MatchResult) returns (dist: real)
    ensures |r.matches| == 0 ==> dist == FloatMax
    ensures |r.matches| > 0 ==> dist == SumDistances(r.matches)
  {
    if |r.matches| == 0 {
      return FloatMax;
    }
    dist := 0.0;
    var i := 0;
    while i < |r.matches|
      invariant 0 <= i <= |r.matches|
      invariant dist == SumDistances(r.matches[..i])
    {
      assert r.matches[..i + 1][..i] == r.matches[..i];
      dist := dist + r.matches[i].distance;
      i := i + 1;
    }
    assert r.matches[..i] == r.matches;
  }

  /** The C++ loop in `good_matches(threshold)`: `push_back` of each match
      that passes. */
  method CollectGoodMatches(r: MatchResult, threshold: real) returns (gm: seq<DMatch>)
    ensures gm == GoodMatches(r.matches, threshold)
  {
    gm := [];
    var i := 0;
    while i < |r.matches|
      invariant 0 <= i <= |r.matches|
      invariant gm == GoodMatches(r.matches[..i], threshold)
    {
      assert r.matches[..i + 1][..i] == r.matches[..i];
      if r.matches[i].distance < threshold {
        gm := gm + [r.matches[i]];
      }
      i := i + 1;
    }
    assert r.matches[..i] == r.matches;
  }

  /** The C++ loop in `good_matches_distance(threshold)`: a running `+=` over
      the good matches. */
  method ComputeGoodMatchesDistance(r: MatchResult, threshold: real) returns (dist: real)
    ensures dist == SumDistances(GoodMatches(r.matches, threshold))
  {
    var gm := CollectGoodMatches(r, threshold);
    dist := 0.0;
    var i := 0;
    while i < |gm|
      invariant 0 <= i <= |gm|
      invariant dist == SumDistances(gm[..i])
    {
      assert gm[..i + 1][..i] == gm[..i];
      dist := dist + gm[i].distance;
      i := i + 1;
    }
    assert gm[..i] == gm;
  }

  // ---------------------------------------------------------------------------
  // Properties of the filter and the sums
  // ---------------------------------------------------------------------------

  /** Filtering a concatenation concatenates the filtered parts: the filter
      keeps the matches in their original order. */
  lemma {:induction false} GoodMatchesAppend(a: seq<DMatch>, b: seq<DMatch>, threshold: real)
    ensures GoodMatches(a + b, threshold) == GoodMatches(a, threshold) + GoodMatches(b, threshold)
    decreases |b|
  {
    if |b| == 0 {
      assert a + b == a;
    } else {
      var b' := b[..|b| - 1];
      assert (a + b)[..|a + b| - 1] == a + b';
      GoodMatchesAppend(a, b', threshold);
    }
  }

  /** A single match survives exactly when its distance is below the threshold. */
  lemma GoodMatchesSingle(m: DMatch, threshold: real)
    ensures GoodMatches([m], threshold) == if m.distance < threshold then [m] else []
  {
    assert [m][..0] == [];
  }

  /** The filter keeps exactly the passing copies of every match: each match
      occurs as often in the result as in the input if it passes, else never. */
  lemma {:induction false} GoodMatchesMultiplicity(ms: seq<DMatch>, threshold: real, m: DMatch)
    ensures multiset(GoodMatches(ms, threshold))[m]
         == if m.distance < threshold then multiset(ms)[m] else 0
  {
    if |ms| > 0 {
      var init := ms[..|ms| - 1];
      GoodMatchesMultiplicity(init, threshold, m);
      assert ms == init + [ms[|ms| - 1]];
    }
  }

  /** Filtering at a lower threshold after a higher one is filtering at the
      lower one; in particular the filter is idempotent. */
  lemma {:induction false} GoodMatchesNested(ms: seq<DMatch>, low: real, high: real)
    requires low <= high
    ensures GoodMatches(GoodMatches(ms, high), low) == GoodMatches(ms, low)
  {
    if |ms| > 0 {
      var init := ms[..|ms| - 1];
      var last := ms[|ms| - 1];
      GoodMatchesNested(init, low, high);
      if last.distance < high {
        GoodMatchesAppend(GoodMatches(init, high), [last], low);
        GoodMatchesSingle(last, low);
      }
    }
  }

  /** Raising the threshold can only keep more matches. */
  lemma GoodMatchesMonotone(ms: seq<DMatch>, low: real, high: real)
    requires low <= high
    ensures |GoodMatches(ms, low)| <= |GoodMatches(ms, high)|
  {
    GoodMatchesNested(ms, low, high);
  }

  /** The filter returns its input exactly when every match passes. */
  lemma {:induction false} GoodMatchesKeepsAll(ms: seq<DMatch>, threshold: real)
    ensures GoodMatches(ms, threshold) == ms
        <==> forall i :: 0 <= i < |ms| ==> ms[i].distance < threshold
  {
    if |ms| > 0 {
      var init := ms[..|ms| - 1];
      GoodMatchesKeepsAll(init, threshold);
      assert ms == init + [ms[|ms| - 1]];
      if GoodMatches(ms, threshold) == ms {
        assert GoodMatches(init, threshold) == init;
      }
    }
  }

  /** The filter returns nothing exactly when no match passes. */
  lemma GoodMatchesEmpty(ms: seq<DMatch>, threshold: real)
    ensures GoodMatches(ms, threshold) == []
        <==> forall i :: 0 <= i < |ms| ==> ms[i].distance >= threshold
  {
    GoodMatchesMembers(ms, threshold);
    var gm := GoodMatches(ms, threshold);
    if gm != [] {
      assert gm[0] in gm;
    }
  }

  lemma NonNegativeGoodMatches(ms: seq<DMatch>, threshold: real)
    requires NonNegativeDistances(ms)
    ensures NonNegativeDistances(GoodMatches(ms, threshold))
  {
    GoodMatchesMembers(ms, threshold);
    var gm := GoodMatches(ms, threshold);
    forall i | 0 <= i < |gm|
      ensures gm[i].distance >= 0.0
    {
      assert gm[i] in gm;
    }
  }

  /** The sum of a concatenation is the sum of the sums. */
  lemma {:induction false} SumAppend(a: seq<DMatch>, b: seq<DMatch>)
    ensures SumDistances(a + b) == SumDistances(a) + SumDistances(b)
    decreases |b|
  {
    if |b| == 0 {
      assert a + b == a;
    } else {
      var b' := b[..|b| - 1];
      assert (a + b)[..|a + b| - 1] == a + b';
      SumAppend(a, b');
    }
  }

  /** With non-negative distances the good matches sum to at most the total. */
  lemma {:induction false} GoodMatchesSumBound(ms: seq<DMatch>, threshold: real)
    requires NonNegativeDistances(ms)
    ensures SumDistances(GoodMatches(ms, threshold)) <= SumDistances(ms)
  {
    if |ms| > 0 {
      var init := ms[..|ms| - 1];
      var last := ms[|ms| - 1];
      GoodMatchesSumBound(init, threshold);
      if last.distance < threshold {
        SumAppend(GoodMatches(init, threshold), [last]);
        assert [last][..0] == [];
      }
    }
  }

  // ---------------------------------------------------------------------------
  // Properties of the ratios and distances
  // ---------------------------------------------------------------------------

  /** A higher threshold never lowers the good-match ratio. */
  lemma GoodMatchesRatioMonotone(r: MatchResult, low: real, high: real)
    requires low <= high
    ensures GoodMatchesRatio(r, low) <= GoodMatchesRatio(r, high)
  {
    if r.numRefDescriptors > 0 {
      GoodMatchesMonotone(r.matches, low, high);
      PerDescriptorMonotone(|GoodMatches(r.matches, low)|,
                            |GoodMatches(r.matches, high)|,
                            r.numRefDescriptors);
    }
  }

  /** A threshold every match passes gives the plain ratio and, when there
      are matches, the plain distance. */
  lemma GoodMatchesAllPass(r: MatchResult, threshold: real)
    requires forall i :: 0 <= i < |r.matches| ==> r.matches[i].distance < threshold
    ensures GoodMatchesRatio(r, threshold) == MatchRatio(r)
    ensures |r.matches| > 0 ==> GoodMatchesDistance(r, threshold) == Distance(r)
  {
    GoodMatchesKeepsAll(r.matches, threshold);
  }

  // ---------------------------------------------------------------------------
  // Comparators
  // ---------------------------------------------------------------------------

  /** `operator<`: clearly lower ratio, or a slightly lower ratio and a
      smaller good-match distance. It never holds unless the ratio is lower. */
  predicate Less(a: MatchResult, b: MatchResult)
    ensures Less(a, b) ==> MatchRatio(a) < MatchRatio(b)
  {
    if MatchRatio(a) + MatchRatioCompareOffset < MatchRatio(b) then true
    else if MatchRatio(a) < MatchRatio(b) then
      GoodMatchesDistance(a, GoodMatchThreshold) < GoodMatchesDistance(b, GoodMatchThreshold)
    else false
  }

  /** `operator>` exactly as written. Its first test holds whenever the left
      ratio is not clearly lower, so the distance test is never reached: it
      depends on the ratios only. */
  predicate GreaterAsWritten(a: MatchResult, b: MatchResult)
    ensures GreaterAsWritten(a, b) <==> MatchRatio(a) + MatchRatioCompareOffset > MatchRatio(b)
  {
    if MatchRatio(a) + MatchRatioCompareOffset > MatchRatio(b) then true
    else if MatchRatio(a) > MatchRatio(b) then
      GoodMatchesDistance(a, GoodMatchThreshold) > GoodMatchesDistance(b, GoodMatchThreshold)
    else false
  }

  /** `operator>` as its comment describes it: the mirror image of `Less`.
      It never holds unless the ratio is higher. */
  predicate Greater(a: MatchResult, b: MatchResult)
    ensures Greater(a, b) ==> MatchRatio(a) > MatchRatio(b)
  {
    if MatchRatio(a) > MatchRatio(b) + MatchRatioCompareOffset then true
    else if MatchRatio(a) > MatchRatio(b) then
      GoodMatchesDistance(a, GoodMatchThreshold) > GoodMatchesDistance(b, GoodMatchThreshold)
    else false
  }

  /** The three tiers of `Less`. */
  lemma LessTiers(a: MatchResult, b: MatchResult)
    ensures MatchRatio(a) + MatchRatioCompareOffset < MatchRatio(b) ==> Less(a, b)
    ensures MatchRatio(a) >= MatchRatio(b) ==> !Less(a, b)
    ensures MatchRatio(a) < MatchRatio(b) <= MatchRatio(a) + MatchRatioCompareOffset ==>
      (Less(a, b) <==> GoodMatchesDistance(a, GoodMatchThreshold) < GoodMatchesDistance(b, GoodMatchThreshold))
  {
  }

  /** `Less` is a strict order: irreflexive, asymmetric and transitive. */
  lemma LessStrictOrder(a: MatchResult, b: MatchResult, c: MatchResult)
    ensures !Less(a, a)
    ensures Less(a, b) ==> !Less(b, a)
    ensures Less(a, b) && Less(b, c) ==> Less(a, c)
  {
  }

  /** ... but not a strict weak order: results with ratios 0, 0.003 and
      0.006 and no good matches are pairwise incomparable neighbours, yet
      the outer two are ordered. Sorting with it is therefore unsafe. */
  lemma LessIncomparabilityNotTransitive()
    ensures var a := MatchResult(1000, []);
      var b := MatchResult(1000, seq(3, _ => DMatch(0, 0, 0, 50.0)));
      var c := MatchResult(1000, seq(6, _ => DMatch(0, 0, 0, 50.0)));
      && !Less(a, b) && !Less(b, a)
      && !Less(b, c) && !Less(c, b)
      && Less(a, c)
  {
  }

  /** As written, `operator>` holds of every result against itself, and of
      both orders of any two results with similar ratios. */
  lemma GreaterAsWrittenReflexive(a: MatchResult, b: MatchResult)
    ensures GreaterAsWritten(a, a)
    ensures -MatchRatioCompareOffset < MatchRatio(a) - MatchRatio(b) < MatchRatioCompareOffset ==>
      GreaterAsWritten(a, b) && GreaterAsWritten(b, a)
  {
  }

  /** The intended `operator>` is the converse of `operator<`, hence also a
      strict order, and never holds of a result against itself. */
  lemma GreaterIsConverseOfLess(a: MatchResult, b: MatchResult)
    ensures Greater(a, b) <==> Less(b, a)
    ensures !Greater(a, a)
  {
  }
}
