/** The global constants at the top of spice.js. */
module SpiceConstants {
  /** Sample rate the audio context is created with (Hz). */
  const ModelSampleRate: nat := 16000
  /** Samples delivered to each audio-processing callback. */
  const NumInputSamples: nat := 1024
  /** Confidence at or above which a pitch frame is trusted. */
  const ConfThreshold: real := 0.8
  /** Semitones per octave. */
  const BinsPerOctave: nat := 12
  /** Affine map from the model's pitch label to a CQT bin. */
  const PtOffset: real := 25.58
  const PtSlope: real := 63.07
  /** The model's fixed input window (three callbacks' worth of samples). */
  const SpiceInputSamples: nat := 3072
}
