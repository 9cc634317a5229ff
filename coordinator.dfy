/**
 * The streaming window coordinator: the state of the `onaudioprocess` closure in
 * handleSuccess. Each callback appends its 1024 samples to the pending buffer; steps 0
 * and 1 run the first and the second half of the model's partial outputs on the active
 * window; step 2 runs the combining call when the active window holds 3072 samples,
 * hands the aggregated pitch to the note handler, and rotates the buffers.
 *
 * `Step` and `Run` specify the closure on values; `AudioProcessor` is the closure itself,
 * whose callback is proved to follow `Step`.
 */
module StreamCoordinator {
  import opened Wrappers
  import opened SpiceConstants
  import PitchMath
  import opened NoteNames
  import opened ConfidenceAggregator
  import opened ModelAdapter

  /** The outputs requested in step 0 (first half of the CQT). */
  const FirstHalfNames: seq<string> := ["Real", "Imag", "Real_1", "Imag_1", "Real_2", "Imag_2"]
  /** The outputs requested in step 1 (second half of the CQT). */
  const SecondHalfNames: seq<string> := ["Real_3", "Imag_3", "Real_4", "Imag_4", "Real_5", "Imag_5"]

  /** The twelve outputs the combining call consumes. */
  const AllNames: set<string> :=
    {"Real", "Imag", "Real_1", "Imag_1", "Real_2", "Imag_2",
     "Real_3", "Imag_3", "Real_4", "Imag_4", "Real_5", "Imag_5"}

  /**
   * What logModelData hands to the note handler, before the frequency and the
   * confidence are formatted as text: a frequency and a note only when confident.
   */
  datatype NoteReport = NoteReport(frequency: Option<real>, noteStr: string, confidence: real, note: Option<real>)

  /** logModelData. */
  function LogModelData(frequency: real, confidence: real, log2: real -> real): (report: NoteReport)
    ensures report.confidence == confidence
    ensures report.note.Some? <==> confidence >= ConfThreshold
    ensures report.frequency == (if confidence >= ConfThreshold then Some(frequency) else None)
    ensures report.note.None? ==> report.noteStr == ""
    ensures report.note.Some? ==>
      report.note.value == PitchMath.Hz2Note(frequency, log2) &&
      report.noteStr == "  " + GetNoteStr(report.note.value)
  {
    if confidence >= ConfThreshold then
      var note := PitchMath.Hz2Note(frequency, log2);
      NoteReport(Some(frequency), "  " + GetNoteStr(note), confidence, Some(note))
    else
      NoteReport(None, "", confidence, None)
  }

  /**
   * The report of one completed cycle: combine the collected outputs, aggregate, log. It
   * carries the aggregate confidence, and is the empty report with confidence 0 when no
   * interior frame was confident.
   */
  function FinalReport(e: Engine, outputs: OutputMap): (report: NoteReport)
    ensures var frame := FinalFrame(e, outputs);
      report.confidence == ConfidentPitch(frame.0, frame.1).confidence &&
      (Kept(frame.0, frame.1) == [] ==> report == NoteReport(None, "", 0.0, None))
  {
    var frame := FinalFrame(e, outputs);
    var est := ConfidentPitch(frame.0, frame.1);
    LogModelData(est.pitch, est.confidence, e.log2)
  }

  /** The combining call of step 2: run the combining model, aggregate its frames, log the result. */
  method CompleteCycle(model: Engine, modelOutput: OutputMap) returns (report: NoteReport)
    ensures report == FinalReport(model, modelOutput)
  {
    var currentPitches, currentConfidences := RunModelFinal(model, modelOutput);
    var smoothPitch, smoothConfidence := GetConfidentPitch(currentPitches, currentConfidences);
    report := LogModelData(smoothPitch, smoothConfidence, model.log2);
  }

  /**
   * After aggregation a report carries a note exactly when some interior frame of the
   * combined output was confident: the threshold is applied twice and agrees with itself.
   */
  lemma ReportHasNoteIffSomeFrameConfident(e: Engine, outputs: OutputMap)
    ensures var frame := FinalFrame(e, outputs);
      FinalReport(e, outputs).note.Some? <==> Kept(frame.0, frame.1) != []
  {
    var frame := FinalFrame(e, outputs);
    var kept := Kept(frame.0, frame.1);
    if kept != [] {
      MeanBetweenExtremes(frame.0, frame.1);
    }
  }

  /** The outputs requested before a given step of a cycle. */
  function NamesBefore(step: nat): seq<string>
  {
    if step == 0 then [] else if step == 1 then FirstHalfNames else FirstHalfNames + SecondHalfNames
  }

  /**
   * The dictionary the partial runs of one cycle leave on `window` before `step`: empty for
   * a short window, never a name outside the twelve, and every entry the output on `window`.
   */
  function ExpectedOutput(execute: (seq<real>, string) -> seq<real>, window: seq<real>, step: nat): (outputs: OutputMap)
    ensures |window| < SpiceInputSamples ==> outputs == map[]
    ensures outputs.Keys <= AllNames
    ensures forall n :: n in outputs ==> outputs[n] == execute(window, n)
  {
    if |window| < SpiceInputSamples then map[]
    else map n | n in NamesBefore(step) :: execute(window, n)
  }

  /**
   * The closure's buffer variables (the current pitch and confidence lists only feed the
   * spectrogram), with the log of the active windows handed to the combining call. The
   * dictionary of partial outputs is not part of this state: it is determined by the
   * active window and the step (see `Consistent`).
   */
  datatype CoordinatorState = CoordinatorState(
    step: nat,
    samplesToUse: seq<real>,
    samplesToPush: seq<real>,
    finalWindows: seq<seq<real>>)

  /** The closure's state before the first callback. */
  const Initial := CoordinatorState(0, [], [], [])

  /**
   * One `onaudioprocess` callback with the chunk `chunk`: the step advances 0, 1, 2, 0; the
   * chunk joins the pending buffer, which at step 2 becomes the active window while the
   * pending buffer starts empty; a full window is logged at step 2.
   */
  function Step(s: CoordinatorState, chunk: seq<real>): (t: CoordinatorState)
    ensures s.step <= 2 ==> t.step == (s.step + 1) % 3
    ensures s.step != 2 ==>
      t.samplesToPush == s.samplesToPush + chunk && t.samplesToUse == s.samplesToUse &&
      t.finalWindows == s.finalWindows
    ensures s.step == 2 ==>
      t.samplesToPush == [] && t.samplesToUse == s.samplesToPush + chunk &&
      t.finalWindows == s.finalWindows + (if |s.samplesToUse| >= SpiceInputSamples then [s.samplesToUse] else [])
  {
    var pushed := s.samplesToPush + chunk;
    if s.step == 0 || s.step == 1 then
      s.(step := s.step + 1, samplesToPush := pushed)
    else if s.step == 2 then
      var finalWindows :=
        if |s.samplesToUse| >= SpiceInputSamples then s.finalWindows + [s.samplesToUse]
        else s.finalWindows;
      CoordinatorState(0, pushed, [], finalWindows)
    else
      s.(samplesToPush := pushed)
  }

  /** The closure's state after the callbacks with `chunks`, in order: step |chunks| mod 3. */
  function Run(chunks: seq<seq<real>>): (s: CoordinatorState)
    ensures s.step == |chunks| % 3
    decreases |chunks|
  {
    if chunks == [] then Initial
    else Step(Run(chunks[..|chunks| - 1]), chunks[|chunks| - 1])
  }

  /** Every chunk has the script processor's buffer size. */
  ghost predicate FullChunks(chunks: seq<seq<real>>)
  {
    forall i :: 0 <= i < |chunks| ==> |chunks[i]| == NumInputSamples
  }

  /** The names requested at a step of a cycle (none at the combining step). */
  function NamesAt(step: nat): seq<string>
  {
    if step == 0 then FirstHalfNames else if step == 1 then SecondHalfNames else []
  }

  /**
   * The partial run at steps 0 and 1 moves the dictionary from the outputs requested
   * before that step to those requested before the next one.
   */
  lemma PartialRunAdvancesCycle(execute: (seq<real>, string) -> seq<real>, window: seq<real>, step: nat)
    requires step < 2
    ensures PartialRun(execute, window, NamesAt(step), ExpectedOutput(execute, window, step))
      == ExpectedOutput(execute, window, step + 1)
  {
    var before := ExpectedOutput(execute, window, step);
    var after := PartialRun(execute, window, NamesAt(step), before);
    if |window| >= SpiceInputSamples {
      assert NamesBefore(step + 1) == NamesBefore(step) + NamesAt(step);
      assert after.Keys == ExpectedOutput(execute, window, step + 1).Keys;
    }
  }

  /** The samples of a list of chunks, one after another. */
  function Concat(chunks: seq<seq<real>>): seq<real>
  {
    if chunks == [] then [] else Concat(chunks[..|chunks| - 1]) + chunks[|chunks| - 1]
  }

  /** The samples of chunks a .. b-1 are those of a .. b-2 followed by chunk b-1. */
  lemma ConcatSnoc(chunks: seq<seq<real>>, a: nat, b: nat)
    requires a < b <= |chunks|
    ensures Concat(chunks[a..b]) == Concat(chunks[a..b - 1]) + chunks[b - 1]
  {
    assert chunks[a..b][..b - 1 - a] == chunks[a..b - 1];
  }

  /** Run on one more chunk is one more Step. */
  lemma RunSnoc(chunks: seq<seq<real>>, chunk: seq<real>)
    ensures Run(chunks + [chunk]) == Step(Run(chunks), chunk)
  {
    assert (chunks + [chunk])[..|chunks|] == chunks;
  }

  /**
   * After n callbacks the step is n modulo 3, the pending buffer holds one chunk per step,
   * the active window is empty during the first cycle and full afterwards, and the
   * combining call ran once per cycle after the first.
   */
  ghost predicate CountsMatch(chunks: seq<seq<real>>, s: CoordinatorState)
  {
    var n := |chunks|;
    && s.step == n % 3
    && |s.samplesToPush| == NumInputSamples * s.step
    && |s.samplesToUse| == (if n < 3 then 0 else SpiceInputSamples)
    && |s.finalWindows| == (if n < 3 then 0 else n / 3 - 1)
  }

  /** The counts hold after any sequence of full chunks. */
  lemma {:induction false} RunCounts(chunks: seq<seq<real>>)
    requires FullChunks(chunks)
    ensures CountsMatch(chunks, Run(chunks))
    decreases |chunks|
  {
    var n := |chunks|;
    if n > 0 {
      FullChunksInit(chunks);
      RunCounts(chunks[..n - 1]);
      CountStep(Run(chunks[..n - 1]), chunks);
    }
  }

  /** One full chunk advances the counts by one callback. */
  lemma CountStep(s: CoordinatorState, chunks: seq<seq<real>>)
    requires chunks != [] && CountsMatch(chunks[..|chunks| - 1], s)
    requires |chunks[|chunks| - 1]| == NumInputSamples
    ensures CountsMatch(chunks, Step(s, chunks[|chunks| - 1]))
  {
    var m, n := |chunks| - 1, |chunks|;
    if s.step == 0 {
      assert n % 3 == 1 && n / 3 == m / 3;
    } else if s.step == 1 {
      assert n % 3 == 2 && n / 3 == m / 3;
    } else {
      assert n % 3 == 0 && n / 3 == m / 3 + 1;
    }
  }

  /**
   * Buffer rotation: the pending buffer holds exactly the chunks of the current cycle
   * (the last `step` ones) and the active window exactly the three chunks of the previous
   * cycle, nothing older.
   */
  ghost predicate BuffersMatch(chunks: seq<seq<real>>, s: CoordinatorState)
  {
    && s.step <= 2 && s.step <= |chunks|
    && var k := |chunks| - s.step;
    && (k == 0 || k >= 3)
    && s.samplesToPush == Concat(chunks[k..])
    && s.samplesToUse == (if k == 0 then [] else Concat(chunks[k - 3..k]))
  }

  /** The buffer rotation holds after any sequence of chunks. */
  lemma {:induction false} RunBuffers(chunks: seq<seq<real>>)
    ensures BuffersMatch(chunks, Run(chunks))
    decreases |chunks|
  {
    if chunks == [] {
      return;
    }
    RunBuffers(chunks[..|chunks| - 1]);
    BufferStep(Run(chunks[..|chunks| - 1]), chunks);
  }

  /** One callback moves the buffer boundaries as BuffersMatch describes. */
  lemma BufferStep(s: CoordinatorState, chunks: seq<seq<real>>)
    requires chunks != [] && BuffersMatch(chunks[..|chunks| - 1], s)
    ensures BuffersMatch(chunks, Step(s, chunks[|chunks| - 1]))
  {
    if s.step < 2 {
      PushWithinCycle(s, chunks);
    } else {
      PushAndRotate(s, chunks);
    }
  }

  /** Steps 0 and 1: the chunk joins the pending buffer, the window stays. */
  lemma PushWithinCycle(s: CoordinatorState, ys: seq<seq<real>>)
    requires ys != [] && BuffersMatch(ys[..|ys| - 1], s) && s.step < 2
    ensures BuffersMatch(ys, Step(s, ys[|ys| - 1]))
  {
    var xs, t := ys[..|ys| - 1], Step(s, ys[|ys| - 1]);
    var k := |xs| - s.step;
    assert t.step == s.step + 1 && |ys| - t.step == k;
    assert ys[k..|xs|] == xs[k..];
    assert ys[k..|ys|] == ys[k..];
    ConcatSnoc(ys, k, |ys|);
    assert t.samplesToPush == Concat(ys[k..]);
    if k > 0 {
      assert ys[k - 3..k] == xs[k - 3..k];
    }
  }

  /** Step 2: the pending buffer with the chunk becomes the window, and a new cycle begins. */
  lemma PushAndRotate(s: CoordinatorState, ys: seq<seq<real>>)
    requires ys != [] && BuffersMatch(ys[..|ys| - 1], s) && s.step == 2
    ensures BuffersMatch(ys, Step(s, ys[|ys| - 1]))
  {
    var n, t := |ys|, Step(s, ys[|ys| - 1]);
    assert s.samplesToPush == Concat(ys[n - 3..n - 1]) by {
      assert ys[..n - 1][n - 3..] == ys[n - 3..n - 1];
    }
    ConcatSnoc(ys, n - 3, n);
    assert t.samplesToUse == Concat(ys[n - 3..n]);
    assert t.samplesToPush == Concat(ys[n..]) by {
      assert ys[n..] == [];
    }
  }

  /** Full chunks concatenate to 1024 samples each. */
  lemma {:induction false} ConcatLength(chunks: seq<seq<real>>)
    requires FullChunks(chunks)
    ensures |Concat(chunks)| == NumInputSamples * |chunks|
    decreases |chunks|
  {
    if chunks != [] {
      FullChunksInit(chunks);
      ConcatLength(chunks[..|chunks| - 1]);
    }
  }

  /**
   * The j-th combining call received the window made of chunks 3j, 3j+1 and 3j+2, and the
   * calls so far cover every completed cycle but the first.
   */
  ghost predicate WindowsMatch(chunks: seq<seq<real>>, s: CoordinatorState)
  {
    && s.step <= |chunks|
    && var k := |chunks| - s.step;
    && (k == 0 ==> s.finalWindows == [])
    && (k > 0 ==> 3 * |s.finalWindows| + 3 == k)
    && forall j :: 0 <= j < |s.finalWindows| ==>
      3 * j + 3 <= |chunks| && s.finalWindows[j] == Concat(chunks[3 * j..3 * j + 3])
  }

  /** The log of combining-call windows holds after any sequence of full chunks. */
  lemma {:induction false} RunFinalWindows(chunks: seq<seq<real>>)
    requires FullChunks(chunks)
    ensures WindowsMatch(chunks, Run(chunks))
    decreases |chunks|
  {
    if chunks == [] {
      return;
    }
    var init := chunks[..|chunks| - 1];
    FullChunksInit(chunks);
    RunFinalWindows(init);
    RunBuffers(init);
    WindowIsFull(init, Run(init));
    WindowStep(Run(init), chunks);
  }

  /** All but the last of a list of full chunks are full, and so is the last. */
  lemma FullChunksInit(chunks: seq<seq<real>>)
    requires FullChunks(chunks) && chunks != []
    ensures FullChunks(chunks[..|chunks| - 1]) && |chunks[|chunks| - 1]| == NumInputSamples
  {
  }

  /** Any run of full chunks is made of full chunks. */
  lemma FullChunksSlice(chunks: seq<seq<real>>, a: nat, b: nat)
    requires FullChunks(chunks) && a <= b <= |chunks|
    ensures FullChunks(chunks[a..b])
  {
    assert forall i :: 0 <= i < b - a ==> chunks[a..b][i] == chunks[a + i];
  }

  /** Once the first cycle is over, the active window holds exactly 3072 samples. */
  lemma WindowIsFull(chunks: seq<seq<real>>, s: CoordinatorState)
    requires FullChunks(chunks) && BuffersMatch(chunks, s)
    ensures |chunks| - s.step > 0 ==> |s.samplesToUse| == SpiceInputSamples
  {
    var k := |chunks| - s.step;
    if k > 0 {
      FullChunksSlice(chunks, k - 3, k);
      ConcatLength(chunks[k - 3..k]);
    }
  }

  /** One callback logs the active window exactly when it closes a cycle after the first. */
  lemma WindowStep(s: CoordinatorState, ys: seq<seq<real>>)
    requires ys != [] && BuffersMatch(ys[..|ys| - 1], s) && WindowsMatch(ys[..|ys| - 1], s)
    requires |ys| - 1 - s.step > 0 ==> |s.samplesToUse| == SpiceInputSamples
    ensures WindowsMatch(ys, Step(s, ys[|ys| - 1]))
  {
    var xs, t := ys[..|ys| - 1], Step(s, ys[|ys| - 1]);
    var k := |xs| - s.step;
    WindowsExtend(xs, ys, s.finalWindows);
    if s.step < 2 {
      assert t.step == s.step + 1 && t.finalWindows == s.finalWindows;
    } else if k > 0 {
      assert t.step == 0 && t.finalWindows == s.finalWindows + [s.samplesToUse];
      assert ys[k - 3..k] == xs[k - 3..k];
    } else {
      assert t.step == 0 && t.finalWindows == s.finalWindows;
    }
  }

  /** The windows cut from a list of chunks are cut the same from any extension of it. */
  lemma WindowsExtend(xs: seq<seq<real>>, ys: seq<seq<real>>, fw: seq<seq<real>>)
    requires xs <= ys
    requires forall j :: 0 <= j < |fw| ==> 3 * j + 3 <= |xs| && fw[j] == Concat(xs[3 * j..3 * j + 3])
    ensures forall j :: 0 <= j < |fw| ==> 3 * j + 3 <= |ys| && fw[j] == Concat(ys[3 * j..3 * j + 3])
  {
    forall j | 0 <= j < |fw|
      ensures ys[3 * j..3 * j + 3] == xs[3 * j..3 * j + 3]
    {
    }
  }

  /** When the combining call fires on a full window, the dictionary holds exactly the twelve partial outputs of that window. */
  lemma FinalCallSeesAllOutputs(execute: (seq<real>, string) -> seq<real>, window: seq<real>)
    requires |window| >= SpiceInputSamples
    ensures ExpectedOutput(execute, window, 2).Keys == AllNames
    ensures forall n :: n in ExpectedOutput(execute, window, 2) ==>
      ExpectedOutput(execute, window, 2)[n] == execute(window, n)
  {
  }

  /** The reports handed to the note handler are those of the logged combining calls, in order. */
  ghost predicate ReportsMatch(e: Engine, reports: seq<NoteReport>, finalWindows: seq<seq<real>>)
  {
    |reports| == |finalWindows| &&
    forall i :: 0 <= i < |reports| ==>
      reports[i] == FinalReport(e, ExpectedOutput(e.execute, finalWindows[i], 2))
  }

  /**
   * The invariant of the closure, on values: the buffers follow `Run` on the chunks
   * received, the pending buffer holds one chunk per step taken in this cycle, the
   * dictionary holds the outputs requested so far in this cycle, and every report is that
   * of a logged window.
   */
  ghost predicate Consistent(e: Engine, received: seq<seq<real>>, s: CoordinatorState,
                             modelOutput: OutputMap, reports: seq<NoteReport>)
  {
    FullChunks(received) && s == Run(received) &&
    s.step <= 2 && |s.samplesToPush| == NumInputSamples * s.step &&
    |s.samplesToUse| <= SpiceInputSamples &&
    modelOutput == ExpectedOutput(e.execute, s.samplesToUse, s.step) &&
    ReportsMatch(e, reports, s.finalWindows)
  }

  /**
   * A callback that runs the partial model at steps 0 and 1, and reports the combining
   * call and clears the dictionary at step 2, keeps the invariant.
   */
  lemma CallbackKeepsConsistent(e: Engine, received: seq<seq<real>>, s: CoordinatorState,
                                modelOutput: OutputMap, reports: seq<NoteReport>, chunk: seq<real>,
                                modelOutput': OutputMap, reports': seq<NoteReport>)
    requires Consistent(e, received, s, modelOutput, reports) && |chunk| == NumInputSamples
    requires s.step < 2 ==>
      reports' == reports &&
      modelOutput' == PartialRun(e.execute, s.samplesToUse, NamesAt(s.step), modelOutput)
    requires s.step == 2 ==>
      modelOutput' == map[] &&
      reports' == reports +
        if |s.samplesToUse| >= SpiceInputSamples then [FinalReport(e, modelOutput)] else []
    ensures Consistent(e, received + [chunk], Step(s, chunk), modelOutput', reports')
  {
    RunSnoc(received, chunk);
    FullChunksSnoc(received, chunk);
    if s.step < 2 {
      PartialStepKeepsOutputs(e, s, modelOutput, chunk, modelOutput');
    } else {
      CombiningStepKeepsReports(e, s, modelOutput, reports, chunk, reports');
    }
  }

  /** Appending a full chunk to full chunks. */
  lemma FullChunksSnoc(chunks: seq<seq<real>>, chunk: seq<real>)
    requires FullChunks(chunks) && |chunk| == NumInputSamples
    ensures FullChunks(chunks + [chunk])
  {
  }

  /** Steps 0 and 1: the partial run brings the dictionary up to the next step. */
  lemma PartialStepKeepsOutputs(e: Engine, s: CoordinatorState, modelOutput: OutputMap,
                                chunk: seq<real>, modelOutput': OutputMap)
    requires s.step < 2 && |s.samplesToPush| == NumInputSamples * s.step
    requires modelOutput == ExpectedOutput(e.execute, s.samplesToUse, s.step)
    requires modelOutput' == PartialRun(e.execute, s.samplesToUse, NamesAt(s.step), modelOutput)
    ensures var t := Step(s, chunk);
      t.step <= 2 && t.samplesToUse == s.samplesToUse && t.finalWindows == s.finalWindows &&
      |t.samplesToPush| == |s.samplesToPush| + |chunk| &&
      modelOutput' == ExpectedOutput(e.execute, t.samplesToUse, t.step)
  {
    PartialRunAdvancesCycle(e.execute, s.samplesToUse, s.step);
  }

  /** Step 2: the combining call's report joins the log exactly when the window was logged. */
  lemma CombiningStepKeepsReports(e: Engine, s: CoordinatorState, modelOutput: OutputMap,
                                  reports: seq<NoteReport>, chunk: seq<real>, reports': seq<NoteReport>)
    requires s.step == 2 && modelOutput == ExpectedOutput(e.execute, s.samplesToUse, 2)
    requires ReportsMatch(e, reports, s.finalWindows)
    requires reports' == reports +
      if |s.samplesToUse| >= SpiceInputSamples then [FinalReport(e, modelOutput)] else []
    ensures ReportsMatch(e, reports', Step(s, chunk).finalWindows)
  {
  }

  /**
   * The closure of handleSuccess: its local variables as fields, `onaudioprocess` as a
   * method. `model` is the loaded model; `reports` records what was handed to the note
   * handler, in order.
   */
  class AudioProcessor {
    const model: Engine
    var step: nat
    var samplesToUse: seq<real>
    var samplesToPush: seq<real>
    var modelOutput: OutputMap
    var reports: seq<NoteReport>
    /** Every chunk received so far, and every window handed to the combining call. */
    ghost var received: seq<seq<real>>
    ghost var finalWindows: seq<seq<real>>

    ghost function State(): CoordinatorState
      reads this
    {
      CoordinatorState(step, samplesToUse, samplesToPush, finalWindows)
    }

    ghost predicate Valid()
      reads this
    {
      Consistent(model, received, State(), modelOutput, reports)
    }

    constructor(model: Engine)
      ensures Valid() && this.model == model
      ensures received == [] && State() == Initial && reports == []
    {
      this.model := model;
      step := 0;
      samplesToUse, samplesToPush := [], [];
      modelOutput := map[];
      reports := [];
      received := [];
      finalWindows := [];
    }

    /** onaudioprocess: push the chunk, then run the current step of the cycle. */
    method OnAudioProcess(inputData: seq<real>)
      requires Valid() && |inputData| == NumInputSamples
      modifies this
      ensures Valid() && received == old(received) + [inputData]
      ensures State() == Step(old(State()), inputData)
      ensures old(step) < 2 ==>
        step == old(step) + 1 && samplesToPush == old(samplesToPush) + inputData &&
        samplesToUse == old(samplesToUse) && reports == old(reports) &&
        modelOutput == PartialRun(model.execute, samplesToUse, NamesAt(old(step)), old(modelOutput))
      ensures old(step) == 2 ==>
        step == 0 && samplesToUse == old(samplesToPush) + inputData &&
        samplesToPush == [] && modelOutput == map[]
      ensures old(step) == 2 ==>
        reports == old(reports) +
          if |old(samplesToUse)| >= SpiceInputSamples then [FinalReport(model, old(modelOutput))] else []
    {
      ghost var s0, modelOutput0, reports0 := State(), modelOutput, reports;
      samplesToPush := samplesToPush + inputData;
      if step == 0 {
        modelOutput := RunModel(model.execute, samplesToUse, FirstHalfNames, modelOutput);
        step := step + 1;
      } else if step == 1 {
        modelOutput := RunModel(model.execute, samplesToUse, SecondHalfNames, modelOutput);
        step := step + 1;
      } else if step == 2 {
        if |samplesToUse| >= SpiceInputSamples {
          var report := CompleteCycle(model, modelOutput);
          reports := reports + [report];
          finalWindows := finalWindows + [samplesToUse];
        }
        var toUse := samplesToPush;
        // The old active buffer is dropped, not recycled: it is replaced by a fresh list.
        samplesToPush := samplesToUse;
        samplesToPush := [];
        modelOutput := map[];
        samplesToUse := toUse;
        step := 0;
      }
      CallbackKeepsConsistent(model, received, s0, modelOutput0, reports0, inputData, modelOutput, reports);
      received := received + [inputData];
    }
  }

  /**
   * Six callbacks: the first cycle reports nothing (its window is still empty), the
   * second reports once, on the twelve partial outputs of the first three chunks.
   */
  method TwoCycles(model: Engine, chunks: seq<seq<real>>)
    returns (afterFirstCycle: seq<NoteReport>, afterSecondCycle: seq<NoteReport>)
    requires |chunks| == 6 && FullChunks(chunks)
    ensures afterFirstCycle == []
    ensures afterSecondCycle ==
      [FinalReport(model, ExpectedOutput(model.execute, chunks[0] + chunks[1] + chunks[2], 2))]
  {
    var processor := new AudioProcessor(model);
    afterFirstCycle := [];
    var i := 0;
    while i < 6
      invariant 0 <= i <= 6
      invariant processor.Valid() && processor.model == model
      invariant processor.received == chunks[..i]
      invariant i >= 3 ==> afterFirstCycle == []
    {
      processor.OnAudioProcess(chunks[i]);
      assert chunks[..i + 1] == chunks[..i] + [chunks[i]];
      i := i + 1;
      if i == 3 {
        NoReportBeforeSixthCallback(model, processor.received, processor.State(),
                                    processor.modelOutput, processor.reports);
        afterFirstCycle := processor.reports;
      }
    }
    afterSecondCycle := processor.reports;
    assert chunks[..6] == chunks;
    FirstReport(model, chunks, processor.State(), processor.modelOutput, processor.reports);
  }

  /** The first cycle's window is empty, so nothing is reported before the sixth callback. */
  lemma NoReportBeforeSixthCallback(e: Engine, received: seq<seq<real>>, s: CoordinatorState,
                                    modelOutput: OutputMap, reports: seq<NoteReport>)
    requires Consistent(e, received, s, modelOutput, reports) && |received| < 6
    ensures reports == []
  {
    RunCounts(received);
  }

  /** The sixth callback reports on the twelve partial outputs of the first three chunks. */
  lemma FirstReport(e: Engine, received: seq<seq<real>>, s: CoordinatorState,
                    modelOutput: OutputMap, reports: seq<NoteReport>)
    requires Consistent(e, received, s, modelOutput, reports) && |received| == 6
    ensures reports ==
      [FinalReport(e, ExpectedOutput(e.execute, received[0] + received[1] + received[2], 2))]
  {
    RunCounts(received);
    RunFinalWindows(received);
    ConcatOfThree(received[0..3]);
  }

  /** Three chunks in a row. */
  lemma ConcatOfThree(chunks: seq<seq<real>>)
    requires |chunks| == 3
    ensures Concat(chunks) == chunks[0] + chunks[1] + chunks[2]
  {
    assert chunks[..2] == [chunks[0], chunks[1]];
    assert chunks[..2][..1] == [chunks[0]];
    assert [chunks[0]][..0] == [];
    assert Concat([chunks[0]]) == chunks[0];
  }
}
