/**
 * The model invocation adapter: runModel (one partial run of the pitch model, writing
 * the requested outputs into the output dictionary) and runModelFinal (the combining run
 * that yields index-aligned pitches and confidences).
 *
 * The inference engine is a pair of functions: `execute(window, name)` is the decoded
 * output `name` of the model run on `window`, and `executeFinal(outputs)` is the decoded
 * pair (uncertainties, labels) of the combining run, both of the frame length.
 */
module ModelAdapter {
  import opened SpiceConstants
  import opened ConfidenceAggregator
  import PitchMath

  /** Output name to decoded output values (modelOutput / outMap). */
  type OutputMap = map<string, seq<real>>

  /** The two outputs of the combining run, in the engine's fixed order. */
  datatype FinalOutputs = FinalOutputs(uncertainties: seq<real>, labels: seq<real>)

  /** The engine's shape contract: one uncertainty per label. */
  type AlignedOutputs = o: FinalOutputs | |o.uncertainties| == |o.labels| witness FinalOutputs([], [])

  /** The opaque pretrained model, together with Math.pow(2, .) and Math.log2. */
  datatype Engine = Engine(
    execute: (seq<real>, string) -> seq<real>,
    executeFinal: OutputMap -> AlignedOutputs,
    pow2: real -> real,
    log2: real -> real)

  /** The dictionary runModel leaves behind: `outMap` with every requested name set, or unchanged for a short window. */
  function PartialRun(execute: (seq<real>, string) -> seq<real>, inputSamples: seq<real>,
                      outputNodeNames: seq<string>, outMap: OutputMap): (result: OutputMap)
    ensures |inputSamples| < SpiceInputSamples ==> result == outMap
    ensures |inputSamples| >= SpiceInputSamples ==>
      result.Keys == outMap.Keys + (set n | n in outputNodeNames) &&
      forall n :: n in outputNodeNames ==> result[n] == execute(inputSamples, n)
    ensures forall k :: k in outMap && k !in outputNodeNames ==> k in result && result[k] == outMap[k]
  {
    if |inputSamples| < SpiceInputSamples then outMap
    else outMap + map n | n in outputNodeNames :: execute(inputSamples, n)
  }

  /**
   * runModel: nothing for fewer than 3072 samples; otherwise one output per requested
   * name is written into the dictionary, and every other key keeps its value. The
   * reshape to [3072] accepts no longer input, so callers pass at most 3072 samples.
   */
  method RunModel(execute: (seq<real>, string) -> seq<real>, inputSamples: seq<real>,
                  outputNodeNames: seq<string>, outMap: OutputMap) returns (result: OutputMap)
    requires |inputSamples| <= SpiceInputSamples
    ensures |inputSamples| < SpiceInputSamples ==> result == outMap
    ensures |inputSamples| == SpiceInputSamples ==>
      result.Keys == outMap.Keys + (set n | n in outputNodeNames) &&
      forall n :: n in outputNodeNames ==> result[n] == execute(inputSamples, n)
    ensures forall k :: k in outMap && k !in outputNodeNames ==> k in result && result[k] == outMap[k]
    ensures result == PartialRun(execute, inputSamples, outputNodeNames, outMap)
  {
    if |inputSamples| < SpiceInputSamples {
      return outMap;
    }
    result := outMap;
    var i := 0;
    while i < |outputNodeNames|
      invariant 0 <= i <= |outputNodeNames|
      invariant result.Keys == outMap.Keys + (set n | n in outputNodeNames[..i])
      invariant forall n :: n in outputNodeNames[..i] ==> result[n] == execute(inputSamples, n)
      invariant forall k :: k in outMap && k !in outputNodeNames[..i] ==> result[k] == outMap[k]
    {
      assert outputNodeNames[..i + 1] == outputNodeNames[..i] + [outputNodeNames[i]];
      result := result[outputNodeNames[i] := execute(inputSamples, outputNodeNames[i])];
      i := i + 1;
    }
    assert outputNodeNames[..i] == outputNodeNames;
  }

  /** What runModelFinal returns: the pitches and confidences of the combining run on `outputs`. */
  function FinalFrame(e: Engine, outputs: OutputMap): (frame: (seq<real>, seq<real>))
    ensures |frame.0| == |frame.1|
    ensures var o := e.executeFinal(outputs);
      |frame.1| == |o.uncertainties| &&
      forall i :: 0 <= i < |frame.1| ==> frame.1[i] == 1.0 - o.uncertainties[i]
    ensures var o := e.executeFinal(outputs);
      |frame.0| == |o.labels| &&
      forall i :: 0 <= i < |frame.0| ==> frame.0[i] == PitchMath.Label2Hz(o.labels[i], e.pow2)
  {
    var o := e.executeFinal(outputs);
    (PitchesOf(o.labels, e.pow2), ConfidencesOf(o.uncertainties))
  }

  /**
   * runModelFinal: run the combining model on the collected outputs and convert its
   * (uncertainties, labels) to index-aligned (pitches, confidences).
   */
  method RunModelFinal(e: Engine, inputDict: OutputMap) returns (pitches: seq<real>, confidences: seq<real>)
    ensures |pitches| == |confidences| == |e.executeFinal(inputDict).labels|
    ensures (pitches, confidences) == FinalFrame(e, inputDict)
  {
    var out := e.executeFinal(inputDict);
    var uncertainties := out.uncertainties;
    var labels := out.labels;
    pitches, confidences := GetPitchAndConfidence(labels, uncertainties, e.pow2);
  }
}
