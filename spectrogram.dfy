/**
 * The semitone bucketing loop of renderFreqDomain: every analyser bin adds its magnitude to
 * the semitone it rounds to, and to every semitone skipped since the previous bin's, so that
 * the spectrogram column has no empty rows between consecutive bins.
 *
 * The lemmas are stated for any bin-to-semitone map `binNote` (the rounded semitone of each
 * bin); the loop itself uses the demo's map, Math.round(analyzerBin2Note(i)).
 */
module Spectrogram {
  import opened NoteNames
  import PitchMath

  /** The semitone the previous bin rounded to; before the first bin, 0. */
  function PrevNote(binNote: seq<int>, i: nat): int
    requires i < |binNote|
  {
    if i == 0 then 0 else binNote[i - 1]
  }

  /** Bin i feeds semitone j: its own semitone, or one of those skipped since the previous bin. */
  predicate Feeds(binNote: seq<int>, i: nat, j: int)
    requires i < |binNote|
  {
    j == binNote[i] || PrevNote(binNote, i) < j < binNote[i]
  }

  /** The magnitudes of bins 0 .. n-1 that feed semitone j, added up. */
  function FedSum(freq: seq<int>, binNote: seq<int>, j: int, n: nat): (sum: int)
    requires n <= |freq| == |binNote|
    ensures FedCount(binNote, j, n) == 0 ==> sum == 0
  {
    if n == 0 then 0
    else FedSum(freq, binNote, j, n - 1) + if Feeds(binNote, n - 1, j) then freq[n - 1] else 0
  }

  /** How many of bins 0 .. n-1 feed semitone j. */
  function FedCount(binNote: seq<int>, j: int, n: nat): (count: nat)
    requires n <= |binNote|
    ensures count <= n
  {
    if n == 0 then 0
    else FedCount(binNote, j, n - 1) + if Feeds(binNote, n - 1, j) then 1 else 0
  }

  /** The rounded semitone of each of the first n analyser bins. */
  function BinNotes(n: nat, log2: real -> real): (binNote: seq<int>)
    ensures |binNote| == n
  {
    seq(n, i requires 0 <= i < n => Round(PitchMath.AnalyzerBin2Note(i as real, log2)))
  }

  /** Math.round never decreases. */
  lemma RoundMonotone(x: real, y: real)
    requires x <= y
    ensures Round(x) <= Round(y)
  {
  }

  /**
   * For an increasing log2 with log2(1) = 0, every bin's rounded semitone lies between 0
   * and the semitone of bin n, so renderFreqDomain's lastSemitone + 1 rows hold them all.
   */
  lemma BinNotesInRange(n: nat, log2: real -> real)
    requires PitchMath.Increasing(log2) && log2(1.0) == 0.0
    ensures forall i :: 0 <= i < n ==>
      0 <= BinNotes(n, log2)[i] <= Round(PitchMath.AnalyzerBin2Note(n as real, log2))
  {
    forall i | 0 <= i < n
      ensures 0 <= BinNotes(n, log2)[i] <= Round(PitchMath.AnalyzerBin2Note(n as real, log2))
    {
      PitchMath.BinNoteAboveHalf(n as real, log2);
      if i == 0 {
        assert BinNotes(n, log2)[i] == Round(PitchMath.AnalyzerBin2Note(0.0, log2)) == 0;
      } else {
        PitchMath.BinNoteAboveHalf(i as real, log2);
        PitchMath.BinNoteMonotone(i as real, n as real, log2);
        RoundMonotone(PitchMath.AnalyzerBin2Note(i as real, log2), PitchMath.AnalyzerBin2Note(n as real, log2));
      }
    }
  }

  /**
   * renderFreqDomain's bucketing: one row per semitone up to that of bin |freq|
   * (lastSemitone + 1 rows), each bin going to Math.round(analyzerBin2Note(i)).
   */
  method BucketBySemitone(freq: seq<int>, log2: real -> real)
    returns (fftBySemitone: array<int>, numBySemitone: array<int>)
    requires PitchMath.Increasing(log2) && log2(1.0) == 0.0
    ensures fresh(fftBySemitone) && fresh(numBySemitone)
    ensures fftBySemitone.Length == numBySemitone.Length ==
      Round(PitchMath.AnalyzerBin2Note(|freq| as real, log2)) + 1
    ensures forall j :: 0 <= j < fftBySemitone.Length ==>
      fftBySemitone[j] == FedSum(freq, BinNotes(|freq|, log2), j, |freq|) &&
      numBySemitone[j] == FedCount(BinNotes(|freq|, log2), j, |freq|)
  {
    var lastSemitone := Round(PitchMath.AnalyzerBin2Note(|freq| as real, log2));
    var binNote := BinNotes(|freq|, log2);
    BinNotesInRange(|freq|, log2);
    if |freq| == 0 {
      assert Round(PitchMath.AnalyzerBin2Note(0.0, log2)) == 0;
    } else {
      assert 0 <= binNote[0] <= lastSemitone;
    }
    fftBySemitone, numBySemitone := Accumulate(freq, binNote, lastSemitone + 1);
  }

  /**
   * The bucketing loop: two zeroed Int32Arrays of `numSemitones` rows, filled bin by bin;
   * `lastNote` remembers the previous bin's semitone.
   */
  method Accumulate(freq: seq<int>, binNote: seq<int>, numSemitones: nat)
    returns (fftBySemitone: array<int>, numBySemitone: array<int>)
    requires |binNote| == |freq|
    requires forall i :: 0 <= i < |binNote| ==> 0 <= binNote[i] < numSemitones
    ensures fresh(fftBySemitone) && fresh(numBySemitone)
    ensures fftBySemitone.Length == numBySemitone.Length == numSemitones
    ensures forall j :: 0 <= j < numSemitones ==>
      fftBySemitone[j] == FedSum(freq, binNote, j, |freq|) &&
      numBySemitone[j] == FedCount(binNote, j, |freq|)
  {
    fftBySemitone := new int[numSemitones](_ => 0);
    numBySemitone := new int[numSemitones](_ => 0);
    var lastNote := 0;
    var i := 0;
    while i < |freq|
      invariant 0 <= i <= |freq|
      invariant lastNote == if i == 0 then 0 else binNote[i - 1]
      invariant forall j :: 0 <= j < numSemitones ==>
        fftBySemitone[j] == FedSum(freq, binNote, j, i) &&
        numBySemitone[j] == FedCount(binNote, j, i)
    {
      var note := binNote[i];
      fftBySemitone[note] := fftBySemitone[note] + freq[i];
      numBySemitone[note] := numBySemitone[note] + 1;
      if lastNote + 1 < note {
        var j := lastNote + 1;
        while j < note
          invariant lastNote + 1 <= j <= note
          invariant forall s :: 0 <= s < numSemitones ==>
            var done := s == note || lastNote < s < j;
            fftBySemitone[s] == FedSum(freq, binNote, s, i) + (if done then freq[i] else 0) &&
            numBySemitone[s] == FedCount(binNote, s, i) + (if done then 1 else 0)
        {
          fftBySemitone[j] := fftBySemitone[j] + freq[i];
          numBySemitone[j] := numBySemitone[j] + 1;
          j := j + 1;
        }
      }
      lastNote := note;
      i := i + 1;
    }
  }

  /**
   * No gaps: every semitone above 0 up to the last bin's is fed by some bin, whatever the
   * order of the bins' semitones.
   */
  lemma {:induction false} NoGaps(binNote: seq<int>, j: int, n: nat)
    requires 0 < n <= |binNote| && 0 < j <= binNote[n - 1]
    ensures FedCount(binNote, j, n) >= 1
  {
    if !Feeds(binNote, n - 1, j) {
      assert n > 1 && j <= binNote[n - 2];
      NoGaps(binNote, j, n - 1);
    }
  }

  /** A semitone above every bin's semitone is fed by none. */
  lemma {:induction false} NothingAboveTheBins(binNote: seq<int>, j: int, n: nat)
    requires n <= |binNote| && forall i :: 0 <= i < n ==> binNote[i] < j
    ensures FedCount(binNote, j, n) == 0
  {
    if n > 0 {
      NothingAboveTheBins(binNote, j, n - 1);
    }
  }

  /** A semitone's sum lies between 0 and 255 per feeding bin when the magnitudes are bytes. */
  lemma {:induction false} FedSumBounds(freq: seq<int>, binNote: seq<int>, j: int, n: nat)
    requires n <= |freq| == |binNote|
    requires forall i :: 0 <= i < |freq| ==> 0 <= freq[i] <= 255
    ensures 0 <= FedSum(freq, binNote, j, n) <= 255 * FedCount(binNote, j, n)
  {
    if n > 0 {
      FedSumBounds(freq, binNote, j, n - 1);
    }
  }

  /**
   * With the analyser's 512 byte-valued bins, no row sum reaches 2^31: the Int32Array
   * additions never wrap around.
   */
  lemma NoInt32Overflow(freq: seq<int>, binNote: seq<int>, j: int)
    requires |freq| == |binNote| <= 512
    requires forall i :: 0 <= i < |freq| ==> 0 <= freq[i] <= 255
    ensures 0 <= FedSum(freq, binNote, j, |freq|) < 0x8000_0000
    ensures FedCount(binNote, j, |freq|) < 0x8000_0000
  {
    FedSumBounds(freq, binNote, j, |freq|);
  }
}
