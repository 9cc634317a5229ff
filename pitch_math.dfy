/**
 * Label, frequency and semitone conversions (label2hz, hz2note, analyzerBin2Note).
 * The transcendental functions are parameters: `pow2(x)` stands for Math.pow(2, x)
 * and `log2(x)` for Math.log2(x); everything around them is modelled exactly over reals.
 */
module PitchMath {
  import opened SpiceConstants

  /** Lowest frequency of the model's constant-Q transform (fmin), in Hz. */
  const FMin: real := 10.0

  /** Highest analyser frequency and number of analyser bins used by analyzerBin2Note. */
  const AnalyzerMaxHz: real := 8000.0
  const AnalyzerBins: real := 512.0

  /** The CQT bin a model label stands for. */
  function CqtBin(pitchLabel: real): real
  {
    pitchLabel * PtSlope + PtOffset
  }

  /** label2hz: fmin * 2^(cqt_bin / 12). */
  function Label2Hz(pitchLabel: real, pow2: real -> real): (hz: real)
    ensures hz > 0.0 <==> pow2(CqtBin(pitchLabel) / 12.0) > 0.0
    ensures hz == 0.0 <==> pow2(CqtBin(pitchLabel) / 12.0) == 0.0
  {
    FMin * pow2(1.0 * CqtBin(pitchLabel) / 12.0)
  }

  /** hz2note: the semitone position of a frequency, 0 for the frequency 0. */
  function Hz2Note(freq: real, log2: real -> real): (note: real)
    ensures freq == 0.0 ==> note == 0.0
    ensures freq != 0.0 ==> note - 0.5 == 12.0 * log2(freq / FMin)
  {
    if freq == 0.0 then 0.0
    else BinsPerOctave as real * log2(freq / FMin) + 0.5
  }

  /** analyzerBin2Note: the semitone position of an analyser bin (bins are 8000/512 Hz wide). */
  function AnalyzerBin2Note(bin: real, log2: real -> real): (note: real)
    ensures bin == 0.0 ==> note == 0.0
    ensures bin != 0.0 ==> note == Hz2Note(bin * 15.625, log2)
  {
    var binFrequency := bin * 1.0 * AnalyzerMaxHz / AnalyzerBins;
    Hz2Note(binFrequency, log2)
  }

  /**
   * Round trip: when log2 inverts pow2 at the label's exponent, the semitone of the
   * pitchLabel's frequency is its CQT bin shifted by half a bin (the `+ 0.5` of hz2note).
   */
  lemma LabelToNoteRoundTrip(pitchLabel: real, pow2: real -> real, log2: real -> real)
    requires pow2(CqtBin(pitchLabel) / 12.0) != 0.0
    requires log2(pow2(CqtBin(pitchLabel) / 12.0)) == CqtBin(pitchLabel) / 12.0
    ensures Hz2Note(Label2Hz(pitchLabel, pow2), log2) == CqtBin(pitchLabel) + 0.5
  {
    var e := CqtBin(pitchLabel) / 12.0;
    var hz := Label2Hz(pitchLabel, pow2);
    assert 1.0 * CqtBin(pitchLabel) / 12.0 == e;
    assert hz / FMin == pow2(e);
  }

  /**
   * Octave law of label2hz: when pow2 doubles per unit exponent, raising a label's CQT bin
   * by 12 (one octave of bins) doubles its frequency.
   */
  lemma LabelOctave(pitchLabel: real, pow2: real -> real)
    requires pow2(CqtBin(pitchLabel) / 12.0 + 1.0) == 2.0 * pow2(CqtBin(pitchLabel) / 12.0)
    ensures CqtBin(pitchLabel + 12.0 / PtSlope) == CqtBin(pitchLabel) + 12.0
    ensures Label2Hz(pitchLabel + 12.0 / PtSlope, pow2) == 2.0 * Label2Hz(pitchLabel, pow2)
  {
    var up := pitchLabel + 12.0 / PtSlope;
    assert CqtBin(up) == CqtBin(pitchLabel) + 12.0;
    assert 1.0 * CqtBin(up) / 12.0 == CqtBin(pitchLabel) / 12.0 + 1.0;
  }

  /**
   * Octave law of hz2note: when log2 gains 1 per doubling, twice a non-zero frequency is
   * twelve semitones higher.
   */
  lemma NoteOctave(freq: real, log2: real -> real)
    requires freq != 0.0
    requires log2(2.0 * (freq / FMin)) == log2(freq / FMin) + 1.0
    ensures Hz2Note(2.0 * freq, log2) == Hz2Note(freq, log2) + 12.0
  {
    assert (2.0 * freq) / FMin == 2.0 * (freq / FMin);
  }

  /** `log2` never decreases on the positive reals, as Math.log2 does not. */
  ghost predicate Increasing(log2: real -> real)
  {
    forall x, y :: 0.0 < x <= y ==> log2(x) <= log2(y)
  }

  /** Octave law of analyzerBin2Note: twice a non-zero bin is twelve semitones higher. */
  lemma BinOctave(bin: real, log2: real -> real)
    requires bin != 0.0
    requires log2(2.0 * (bin * 15.625 / FMin)) == log2(bin * 15.625 / FMin) + 1.0
    ensures AnalyzerBin2Note(2.0 * bin, log2) == AnalyzerBin2Note(bin, log2) + 12.0
  {
    assert (2.0 * bin) * 15.625 == 2.0 * (bin * 15.625);
    NoteOctave(bin * 15.625, log2);
  }

  /** Higher bins never map to lower semitones. */
  lemma BinNoteMonotone(a: real, b: real, log2: real -> real)
    requires 0.0 < a <= b
    requires Increasing(log2)
    ensures AnalyzerBin2Note(a, log2) <= AnalyzerBin2Note(b, log2)
  {
    assert a * 15.625 / FMin <= b * 15.625 / FMin;
  }

  /**
   * Every bin from 1 up lies at least half a semitone above 0: bin 1 is 15.625 Hz, above
   * fmin = 10 Hz, so its log2 is positive when log2(1) is 0.
   */
  lemma BinNoteAboveHalf(bin: real, log2: real -> real)
    requires bin >= 1.0
    requires Increasing(log2) && log2(1.0) == 0.0
    ensures AnalyzerBin2Note(bin, log2) >= 0.5
  {
    assert 1.0 <= bin * 15.625 / FMin;
  }
}
