/**
 * The confidence aggregator: getPitchAndConfidence turns the model's raw outputs into
 * index-aligned pitch and confidence lists, and getConfidentPitch collapses them into one
 * (pitch, confidence) pair over the confident interior frames.
 */
module ConfidenceAggregator {
  import opened SpiceConstants
  import PitchMath

  /** One aggregated (pitch, confidence) pair; (0, 0) when no frame was confident. */
  datatype PitchEstimate = PitchEstimate(pitch: real, confidence: real)

  /** The confidences of the model's uncertainties: 1 - u, index by index. */
  function ConfidencesOf(uncertainties: seq<real>): (confidences: seq<real>)
    ensures |confidences| == |uncertainties|
    ensures forall i :: 0 <= i < |uncertainties| ==>
      confidences[i] + uncertainties[i] == 1.0
  {
    seq(|uncertainties|, i requires 0 <= i < |uncertainties| => 1.0 - uncertainties[i])
  }

  /** The frequencies of the model's labels, index by index (label2hz with `pow2` for 2^x). */
  function PitchesOf(labels: seq<real>, pow2: real -> real): (pitches: seq<real>)
    ensures |pitches| == |labels|
    ensures forall i :: 0 <= i < |labels| ==> pitches[i] == PitchMath.Label2Hz(labels[i], pow2)
  {
    seq(|labels|, i requires 0 <= i < |labels| => PitchMath.Label2Hz(labels[i], pow2))
  }

  /** getPitchAndConfidence: two push loops building the pitch and confidence lists. */
  method GetPitchAndConfidence(labels: seq<real>, uncertainties: seq<real>, pow2: real -> real)
    returns (pitches: seq<real>, confidences: seq<real>)
    ensures |confidences| == |uncertainties| && |pitches| == |labels|
    ensures forall i :: 0 <= i < |uncertainties| ==> confidences[i] == 1.0 - uncertainties[i]
    ensures forall i :: 0 <= i < |labels| ==> pitches[i] == PitchMath.Label2Hz(labels[i], pow2)
    ensures pitches == PitchesOf(labels, pow2) && confidences == ConfidencesOf(uncertainties)
  {
    confidences := [];
    var i := 0;
    while i < |uncertainties|
      invariant 0 <= i <= |uncertainties|
      invariant |confidences| == i
      invariant forall j :: 0 <= j < i ==> confidences[j] == 1.0 - uncertainties[j]
    {
      confidences := confidences + [1.0 - uncertainties[i]];
      i := i + 1;
    }
    pitches := [];
    i := 0;
    while i < |labels|
      invariant 0 <= i <= |labels|
      invariant |pitches| == i
      invariant forall j :: 0 <= j < i ==> pitches[j] == PitchMath.Label2Hz(labels[j], pow2)
    {
      pitches := pitches + [PitchMath.Label2Hz(labels[i], pow2)];
      i := i + 1;
    }
  }

  /** A frame takes part in the average when its confidence is not below the threshold. */
  predicate Confident(conf: real)
  {
    !(conf < ConfThreshold)
  }

  /**
   * The (pitch, confidence) pairs of the confident frames among indices 1 .. k-1, in order.
   * Index 0 is never looked at.
   */
  function KeptUpTo(pitches: seq<real>, confidences: seq<real>, k: int): (kept: seq<(real, real)>)
    requires k <= 1 || (k <= |pitches| && k <= |confidences|)
    ensures |kept| <= if k <= 1 then 0 else k - 1
    decreases k
  {
    if k <= 1 then []
    else
      KeptUpTo(pitches, confidences, k - 1) +
        (if Confident(confidences[k - 1]) then [(pitches[k - 1], confidences[k - 1])] else [])
  }

  /** Every interior index of `pitches` is an index of `confidences`. */
  predicate Aligned(pitches: seq<real>, confidences: seq<real>)
  {
    |pitches| <= |confidences| + 1
  }

  /** The confident frames getConfidentPitch averages: indices 1 .. |pitches|-2 only. */
  function Kept(pitches: seq<real>, confidences: seq<real>): (kept: seq<(real, real)>)
    requires Aligned(pitches, confidences)
    ensures |kept| <= if |pitches| <= 2 then 0 else |pitches| - 2
    ensures forall i :: 0 <= i < |kept| ==> kept[i].1 >= ConfThreshold
  {
    KeptAreConfident(pitches, confidences, |pitches| - 1);
    KeptUpTo(pitches, confidences, |pitches| - 1)
  }

  function SumPitch(kept: seq<(real, real)>): real
  {
    if kept == [] then 0.0 else SumPitch(kept[..|kept| - 1]) + kept[|kept| - 1].0
  }

  function SumConf(kept: seq<(real, real)>): real
  {
    if kept == [] then 0.0 else SumConf(kept[..|kept| - 1]) + kept[|kept| - 1].1
  }

  /** The value getConfidentPitch returns: the means over the kept frames, or (0, 0). */
  function ConfidentPitch(pitches: seq<real>, confidences: seq<real>): (est: PitchEstimate)
    requires Aligned(pitches, confidences)
    ensures Kept(pitches, confidences) == [] ==> est == PitchEstimate(0.0, 0.0)
  {
    var kept := Kept(pitches, confidences);
    if |kept| == 0 then PitchEstimate(0.0, 0.0)
    else PitchEstimate(SumPitch(kept) / |kept| as real, SumConf(kept) / |kept| as real)
  }

  /** getConfidentPitch: the accumulator loop over the interior frames. */
  method GetConfidentPitch(pitches: seq<real>, confidences: seq<real>)
    returns (pitch: real, confidence: real)
    requires Aligned(pitches, confidences)
    ensures PitchEstimate(pitch, confidence) == ConfidentPitch(pitches, confidences)
  {
    var totalPitches := 0.0;
    var totalConf := 0.0;
    var numPitches := 0;
    var i := 1;
    while i < |pitches| - 1
      invariant 1 <= i <= if |pitches| >= 2 then |pitches| - 1 else 1
      invariant numPitches == |KeptUpTo(pitches, confidences, i)|
      invariant totalPitches == SumPitch(KeptUpTo(pitches, confidences, i))
      invariant totalConf == SumConf(KeptUpTo(pitches, confidences, i))
    {
      var conf := confidences[i];
      KeptStep(pitches, confidences, i);
      if conf < ConfThreshold {
        i := i + 1;
        continue;
      }
      totalPitches := totalPitches + pitches[i];
      totalConf := totalConf + conf;
      numPitches := numPitches + 1;
      i := i + 1;
    }
    assert KeptUpTo(pitches, confidences, i) == Kept(pitches, confidences);
    if numPitches == 0 {
      return 0.0, 0.0;
    }
    return totalPitches / numPitches as real, totalConf / numPitches as real;
  }

  /** One more frame: KeptUpTo grows by that frame exactly when it is confident. */
  lemma KeptStep(pitches: seq<real>, confidences: seq<real>, i: int)
    requires 1 <= i < |pitches| && i < |confidences|
    ensures var before, after := KeptUpTo(pitches, confidences, i), KeptUpTo(pitches, confidences, i + 1);
      if Confident(confidences[i]) then
        |after| == |before| + 1 &&
        SumPitch(after) == SumPitch(before) + pitches[i] &&
        SumConf(after) == SumConf(before) + confidences[i]
      else after == before
  {
    var before := KeptUpTo(pitches, confidences, i);
    var after := before + [(pitches[i], confidences[i])];
    assert after[..|before|] == before;
  }

  /** Membership in KeptUpTo is exactly "confident interior index below k". */
  lemma {:induction false} KeptUpToMembers(pitches: seq<real>, confidences: seq<real>, k: int)
    requires k <= |pitches| && k <= |confidences|
    ensures forall i :: 1 <= i < k && Confident(confidences[i]) ==>
      (pitches[i], confidences[i]) in KeptUpTo(pitches, confidences, k)
    ensures forall x :: x in KeptUpTo(pitches, confidences, k) ==>
      exists i :: 1 <= i < k && Confident(confidences[i]) && x == (pitches[i], confidences[i])
    decreases k
  {
    if k > 1 {
      KeptUpToMembers(pitches, confidences, k - 1);
    }
  }

  /**
   * The kept frames are exactly the confident ones strictly between the borders:
   * index 0 and the last index never contribute, and confidences below 0.8 are skipped.
   */
  lemma KeptMembers(pitches: seq<real>, confidences: seq<real>)
    requires Aligned(pitches, confidences)
    ensures forall i :: 1 <= i < |pitches| - 1 && Confident(confidences[i]) ==>
      (pitches[i], confidences[i]) in Kept(pitches, confidences)
    ensures forall x :: x in Kept(pitches, confidences) ==>
      exists i :: 1 <= i < |pitches| - 1 && Confident(confidences[i]) && x == (pitches[i], confidences[i])
  {
    KeptUpToMembers(pitches, confidences, |pitches| - 1);
  }

  /** The result is exactly (0, 0) when no interior frame is confident, and only then. */
  lemma NothingConfident(pitches: seq<real>, confidences: seq<real>)
    requires Aligned(pitches, confidences)
    ensures Kept(pitches, confidences) == [] <==>
      forall i :: 1 <= i < |pitches| - 1 ==> confidences[i] < ConfThreshold
    ensures Kept(pitches, confidences) == [] ==> ConfidentPitch(pitches, confidences) == PitchEstimate(0.0, 0.0)
  {
    KeptMembers(pitches, confidences);
    var kept := Kept(pitches, confidences);
    if kept != [] {
      assert kept[0] in kept;
    }
  }

  /** Sums over frames each within [lo, hi] lie within [n * lo, n * hi]. */
  lemma {:induction false} SumPitchBounds(kept: seq<(real, real)>, lo: real, hi: real)
    requires forall i :: 0 <= i < |kept| ==> lo <= kept[i].0 <= hi
    ensures |kept| as real * lo <= SumPitch(kept) <= |kept| as real * hi
  {
    if kept != [] {
      SumPitchBounds(kept[..|kept| - 1], lo, hi);
    }
  }

  /** A sum of confidences each at least lo is at least n * lo. */
  lemma {:induction false} SumConfAtLeast(kept: seq<(real, real)>, lo: real)
    requires forall i :: 0 <= i < |kept| ==> lo <= kept[i].1
    ensures |kept| as real * lo <= SumConf(kept)
  {
    if kept != [] {
      SumConfAtLeast(kept[..|kept| - 1], lo);
    }
  }

  /** A mean of n values within [n * lo, n * hi] lies within [lo, hi]. */
  lemma MeanBounds(sum: real, n: nat, lo: real, hi: real)
    requires n > 0
    requires n as real * lo <= sum <= n as real * hi
    ensures lo <= sum / n as real <= hi
  {
    var m := sum / n as real;
    assert sum == m * n as real;
  }

  /** A mean of n values summing to at least n * lo is at least lo. */
  lemma MeanAtLeast(sum: real, n: nat, lo: real)
    requires n > 0 && n as real * lo <= sum
    ensures lo <= sum / n as real
  {
    var m := sum / n as real;
    assert sum == m * n as real;
  }

  /** The mean pitch of some frames lies within any interval that holds each of them. */
  lemma MeanPitchWithin(kept: seq<(real, real)>, lo: real, hi: real)
    requires kept != [] && forall x :: x in kept ==> lo <= x.0 <= hi
    ensures lo <= SumPitch(kept) / |kept| as real <= hi
  {
    forall i | 0 <= i < |kept| ensures lo <= kept[i].0 <= hi {
      assert kept[i] in kept;
    }
    SumPitchBounds(kept, lo, hi);
    MeanBounds(SumPitch(kept), |kept|, lo, hi);
  }

  /** The mean confidence of frames that each reach the threshold reaches it too. */
  lemma MeanConfAtLeast(kept: seq<(real, real)>)
    requires kept != [] && forall i :: 0 <= i < |kept| ==> kept[i].1 >= ConfThreshold
    ensures SumConf(kept) / |kept| as real >= ConfThreshold
  {
    SumConfAtLeast(kept, ConfThreshold);
    MeanAtLeast(SumConf(kept), |kept|, ConfThreshold);
  }

  /**
   * When some frame is kept, the mean confidence is at least the threshold, and the mean
   * pitch lies within any interval that holds every kept pitch (so between their minimum
   * and maximum).
   */
  lemma MeansAreBounded(pitches: seq<real>, confidences: seq<real>, lo: real, hi: real)
    requires Aligned(pitches, confidences)
    requires Kept(pitches, confidences) != []
    requires forall x :: x in Kept(pitches, confidences) ==> lo <= x.0 <= hi
    ensures lo <= ConfidentPitch(pitches, confidences).pitch <= hi
    ensures ConfidentPitch(pitches, confidences).confidence >= ConfThreshold
  {
    MeanPitchWithin(Kept(pitches, confidences), lo, hi);
    MeanConfAtLeast(Kept(pitches, confidences));
  }

  /** The smallest pitch among some frames. */
  function MinPitch(kept: seq<(real, real)>): real
    requires kept != []
  {
    if |kept| == 1 then kept[0].0
    else var m := MinPitch(kept[1..]); if kept[0].0 < m then kept[0].0 else m
  }

  /** The largest pitch among some frames. */
  function MaxPitch(kept: seq<(real, real)>): real
    requires kept != []
  {
    if |kept| == 1 then kept[0].0
    else var m := MaxPitch(kept[1..]); if kept[0].0 > m then kept[0].0 else m
  }

  /** Every frame's pitch lies between the smallest and the largest. */
  lemma {:induction false} PitchRange(kept: seq<(real, real)>)
    requires kept != []
    ensures forall x :: x in kept ==> MinPitch(kept) <= x.0 <= MaxPitch(kept)
  {
    if |kept| > 1 {
      PitchRange(kept[1..]);
      assert forall x :: x in kept ==> x == kept[0] || x in kept[1..];
    }
  }

  /**
   * When some frame is kept, the aggregate pitch lies between the smallest and the largest
   * kept pitch, and the aggregate confidence reaches the threshold.
   */
  lemma MeanBetweenExtremes(pitches: seq<real>, confidences: seq<real>)
    requires Aligned(pitches, confidences) && Kept(pitches, confidences) != []
    ensures var kept := Kept(pitches, confidences);
      MinPitch(kept) <= ConfidentPitch(pitches, confidences).pitch <= MaxPitch(kept)
    ensures ConfidentPitch(pitches, confidences).confidence >= ConfThreshold
  {
    var kept := Kept(pitches, confidences);
    PitchRange(kept);
    MeansAreBounded(pitches, confidences, MinPitch(kept), MaxPitch(kept));
  }

  /** Every frame KeptUpTo keeps has a confidence at or above the threshold. */
  lemma {:induction false} KeptAreConfident(pitches: seq<real>, confidences: seq<real>, k: int)
    requires k <= 1 || (k <= |pitches| && k <= |confidences|)
    ensures forall i :: 0 <= i < |KeptUpTo(pitches, confidences, k)| ==>
      KeptUpTo(pitches, confidences, k)[i].1 >= ConfThreshold
    decreases k
  {
    if k > 1 {
      KeptAreConfident(pitches, confidences, k - 1);
      var prev, kept := KeptUpTo(pitches, confidences, k - 1), KeptUpTo(pitches, confidences, k);
      forall i | 0 <= i < |kept| ensures kept[i].1 >= ConfThreshold {
        if i < |prev| {
          assert kept[i] == prev[i];
        } else {
          assert Confident(confidences[k - 1]) && kept[i] == (pitches[k - 1], confidences[k - 1]);
        }
      }
    }
  }

  /** Values at index 0 or at the last index do not change KeptUpTo below the last index. */
  lemma {:induction false} BordersIgnoredUpTo(p: seq<real>, c: seq<real>, p': seq<real>, c': seq<real>, k: int)
    requires |p| == |p'| && |c| == |c'| && k <= |p| - 1 && k <= |c|
    requires forall i :: 1 <= i < |p| - 1 ==> p[i] == p'[i]
    requires forall i :: 1 <= i < |p| - 1 && i < |c| ==> c[i] == c'[i]
    ensures KeptUpTo(p, c, k) == KeptUpTo(p', c', k)
    decreases k
  {
    if k > 1 {
      BordersIgnoredUpTo(p, c, p', c', k - 1);
    }
  }

  /** Overwriting the first and the last frame never changes the aggregate. */
  lemma BordersIgnored(pitches: seq<real>, confidences: seq<real>, first: (real, real), last: (real, real))
    requires |pitches| == |confidences| >= 2
    ensures var n := |pitches|;
      var p' := pitches[0 := first.0][n - 1 := last.0];
      var c' := confidences[0 := first.1][n - 1 := last.1];
      ConfidentPitch(p', c') == ConfidentPitch(pitches, confidences)
  {
    var n := |pitches|;
    var p' := pitches[0 := first.0][n - 1 := last.0];
    var c' := confidences[0 := first.1][n - 1 := last.1];
    BordersIgnoredUpTo(pitches, confidences, p', c', n - 1);
  }

  /** The worked example: confidences [0.9, 0.9, 0.2, 0.9, 0.9] average indices 1 and 3 only. */
  lemma BorderAndThresholdExample(p0: real, p1: real, p2: real, p3: real, p4: real)
    ensures ConfidentPitch([p0, p1, p2, p3, p4], [0.9, 0.9, 0.2, 0.9, 0.9])
      == PitchEstimate((p1 + p3) / 2.0, 0.9)
  {
    var p, c := [p0, p1, p2, p3, p4], [0.9, 0.9, 0.2, 0.9, 0.9];
    assert KeptUpTo(p, c, 2) == [(p1, 0.9)];
    assert KeptUpTo(p, c, 3) == [(p1, 0.9)];
    assert KeptUpTo(p, c, 4) == [(p1, 0.9), (p3, 0.9)];
    var kept := [(p1, 0.9), (p3, 0.9)];
    assert kept[..1] == [(p1, 0.9)];
    assert [(p1, 0.9)][..0] == [];
    assert SumPitch([(p1, 0.9)]) == p1 && SumConf([(p1, 0.9)]) == 0.9;
    assert SumPitch(kept) == p1 + p3;
    assert SumConf(kept) == 1.8;
  }
}
