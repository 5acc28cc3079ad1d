/** The voice detector: minimum-length padding of the waveform, the mapping
    from the classifier's predicted label to a verdict, and the catch-all
    that turns any analysis failure into a default verdict.

    Audio loading, peak normalisation, the neural classifier and score
    rounding are not interpreted: they are fields of `Model`, and all but
    the rounding may fail. */
module Detector {
  import opened Wrappers
  import opened Text

  /** The sample rate the classifier expects; also the minimum number of
      samples (one second) fed to it. */
  const TargetSr: nat := 16000

  type Bytes = seq<bv8>

  /** Samples are integers; only their order and the zero sample used for
      padding matter here. */
  type Sample = int

  const ZeroSample: Sample := 0

  datatype Classification = AiGenerated | Human

  /** The opening words the two explanations share. The sentences are
      written as this opening plus the rest so that the verifier can see
      their first character, which `ErrorPrefixIsNotTemplated` compares
      with the error prefix; the program writes each sentence in full. */
  const ExplanationOpening: string := "Deep learning model "
  const AiExplanation: string :=
    ExplanationOpening + "detected synthetic vocal artifacts and unnatural spectral patterns."
  const HumanExplanation: string :=
    ExplanationOpening + "verified natural micro-prosody and human vocal characteristics."
  const ErrorPrefix: string := "Error during analysis: "

  /** The classification as it appears in the response body. */
  function ClassificationName(c: Classification): (name: string)
    ensures name == "AI_GENERATED" || name == "HUMAN"
    ensures name == "AI_GENERATED" <==> c == AiGenerated
  {
    match c
    case AiGenerated => "AI_GENERATED"
    case Human => "HUMAN"
  }

  /** What the classifier reports: the arg-max class index, that class's
      name from the model configuration, and its probability. */
  datatype Prediction = Prediction(id: int, name: string, confidence: real)

  /** The dictionary `analyze` returns. */
  datatype Analysis = Analysis(classification: Classification, confidenceScore: real, explanation: string)

  /** The opaque steps of the analysis. Loading and resampling to
      `TargetSr`, peak normalisation, and the feature extraction plus
      forward pass plus arg-max may each fail; `roundScore`, rounding to two
      decimal places, always gives a value. */
  datatype Model = Model(
    load: Bytes -> Result<seq<Sample>>,
    normalize: seq<Sample> -> Result<seq<Sample>>,
    infer: seq<Sample> -> Result<Prediction>,
    roundScore: real -> real)

  // ---------------------------------------------------------------------
  // Padding

  /** Right-pads a waveform shorter than `target` with `zero` up to exactly
      `target` samples; a waveform of at least `target` samples is returned
      unchanged. */
  function Pad<T>(y: seq<T>, zero: T, target: nat): (r: seq<T>)
    ensures |y| < target ==> |r| == target
    ensures |y| < target ==> r[..|y|] == y
    ensures |y| < target ==> forall i :: |y| <= i < target ==> r[i] == zero
    ensures |y| >= target ==> r == y
  {
    if |y| < target then
      var padding := target - |y|;
      y + seq(padding, _ => zero)
    else
      y
  }

  /** Padding never shortens, always reaches the target length, and keeps
      the input as a prefix. */
  lemma PadKeepsPrefix<T>(y: seq<T>, zero: T, target: nat)
    ensures |Pad(y, zero, target)| == if |y| < target then target else |y|
    ensures |Pad(y, zero, target)| >= target
    ensures y <= Pad(y, zero, target)
  {
  }

  /** Padding twice is padding once. */
  lemma PadIdempotent<T>(y: seq<T>, zero: T, target: nat)
    ensures Pad(Pad(y, zero, target), zero, target) == Pad(y, zero, target)
  {
  }

  // ---------------------------------------------------------------------
  // Label mapping

  const AiMarkers: seq<string> := ["fake", "spoof", "ai"]
  const HumanMarkers: seq<string> := ["real", "bonafide", "human"]

  /** Some marker of `markers` occurs in `s`. */
  ghost predicate MentionsAny(markers: seq<string>, s: string) {
    exists k :: 0 <= k < |markers| && IsSubstring(markers[k], s)
  }

  lemma MentionsAnyOfThree(a: string, b: string, c: string, s: string)
    ensures MentionsAny([a, b, c], s) <==> IsSubstring(a, s) || IsSubstring(b, s) || IsSubstring(c, s)
  {
    var m := [a, b, c];
    if IsSubstring(a, s) { assert IsSubstring(m[0], s); }
    if IsSubstring(b, s) { assert IsSubstring(m[1], s); }
    if IsSubstring(c, s) { assert IsSubstring(m[2], s); }
  }

  /** The decision whether a prediction means synthetic speech: an AI
      marker in the lower-cased label wins, then a human marker, and only a
      label with neither falls back to the class index, 1 meaning AI. */
  function IsAi(predictedId: int, predictedLabel: string): (isAi: bool)
    ensures MentionsAny(AiMarkers, Lower(predictedLabel)) ==> isAi
    ensures !MentionsAny(AiMarkers, Lower(predictedLabel)) && MentionsAny(HumanMarkers, Lower(predictedLabel))
            ==> !isAi
    ensures !MentionsAny(AiMarkers, Lower(predictedLabel)) && !MentionsAny(HumanMarkers, Lower(predictedLabel))
            ==> (isAi <==> predictedId == 1)
  {
    var lbl := Lower(predictedLabel);
    MentionsAnyOfThree("fake", "spoof", "ai", lbl);
    MentionsAnyOfThree("real", "bonafide", "human", lbl);
    if Contains("fake", lbl) || Contains("spoof", lbl) || Contains("ai", lbl) then
      true
    else if Contains("real", lbl) || Contains("bonafide", lbl) || Contains("human", lbl) then
      false
    else
      predictedId == 1
  }

  /** A result whose explanation is the sentence belonging to its
      classification. */
  predicate Templated(a: Analysis) {
    || (a.classification == AiGenerated && a.explanation == AiExplanation)
    || (a.classification == Human && a.explanation == HumanExplanation)
  }

  /** The result `analyze` builds from a successful prediction. */
  function FromPrediction(p: Prediction, roundScore: real -> real): (a: Analysis)
    ensures a.classification == AiGenerated <==> IsAi(p.id, p.name)
    ensures Templated(a)
    ensures a.confidenceScore == roundScore(p.confidence)
  {
    var isAi := IsAi(p.id, p.name);
    if isAi then
      Analysis(AiGenerated, roundScore(p.confidence), AiExplanation)
    else
      Analysis(Human, roundScore(p.confidence), HumanExplanation)
  }

  /** The result of the catch-all: a failure reads as human speech with
      confidence 0.0, the failure's text after a fixed prefix. */
  function Fallback(message: string): (a: Analysis)
    ensures a.classification == Human && a.confidenceScore == 0.0
    ensures ErrorPrefix <= a.explanation
    ensures a.explanation[|ErrorPrefix|..] == message
  {
    Analysis(Human, 0.0, ErrorPrefix + message)
  }

  /** An AI marker anywhere in the label decides AI, whatever the index and
      whatever else the label says. */
  lemma AiMarkerWins(p: Prediction, roundScore: real -> real)
    requires MentionsAny(AiMarkers, Lower(p.name))
    ensures FromPrediction(p, roundScore).classification == AiGenerated
    ensures FromPrediction(p, roundScore).explanation == AiExplanation
  {
  }

  /** Without an AI marker, a human marker decides HUMAN whatever the index. */
  lemma HumanMarkerWins(p: Prediction, roundScore: real -> real)
    requires !MentionsAny(AiMarkers, Lower(p.name))
    requires MentionsAny(HumanMarkers, Lower(p.name))
    ensures FromPrediction(p, roundScore).classification == Human
    ensures FromPrediction(p, roundScore).explanation == HumanExplanation
  {
  }

  /** With no marker at all the index decides: AI exactly at index 1. */
  lemma PositionalFallback(p: Prediction, roundScore: real -> real)
    requires !MentionsAny(AiMarkers, Lower(p.name))
    requires !MentionsAny(HumanMarkers, Lower(p.name))
    ensures FromPrediction(p, roundScore).classification == AiGenerated <==> p.id == 1
  {
  }

  /** Labels that differ only in the case of ASCII letters, paired with the
      same index, get the same verdict. */
  lemma LabelCaseInsensitive(id: int, a: string, b: string)
    requires EqualIgnoringCase(a, b)
    ensures IsAi(id, a) == IsAi(id, b)
  {
    LowerEqualIffEqualIgnoringCase(a, b);
  }

  /** The test for "ai" is a bare substring test: a lower-case label in
      which "ai" occurs anywhere is AI, even inside a word. */
  lemma AiInsideAnyWordWins(id: int, lbl: string, i: nat)
    requires NoAsciiUpper(lbl)
    requires OccursAt("ai", lbl, i)
    ensures IsAi(id, lbl)
  {
    LowerOfLowercase(lbl);
    assert OccursAt(AiMarkers[2], Lower(lbl), i);
  }

  /** So a label that plainly says "real" can still come out AI:
      "trained_real" holds "ai" at index 2. */
  lemma TrainedRealIsAi(id: int)
    ensures IsSubstring("real", "trained_real")
    ensures IsAi(id, "trained_real")
  {
    var s := "trained_real";
    assert s == ['t', 'r', 'a', 'i', 'n', 'e', 'd', '_', 'r', 'e', 'a', 'l'];
    assert OccursAt("real", s, 8);
    AiInsideAnyWordWins(id, s, 2);
  }

  // ---------------------------------------------------------------------
  // The analysis pipeline

  /** Loading, padding to one second, then normalising. A loading failure
      stops the pipeline with that failure; otherwise the normaliser sees a
      waveform of at least one second that starts with the loaded samples
      and is silent after them. */
  function Preprocess(m: Model, buffer: Bytes): (r: Result<seq<Sample>>)
    ensures m.load(buffer).Err? ==> r == Err(m.load(buffer).message)
    ensures m.load(buffer).Ok? ==> r == m.normalize(Pad(m.load(buffer).value, ZeroSample, TargetSr))
    ensures m.load(buffer).Ok? ==>
      exists w: seq<Sample> ::
        && r == m.normalize(w)
        && |w| >= TargetSr
        && m.load(buffer).value <= w
        && forall i :: |m.load(buffer).value| <= i < |w| ==> w[i] == ZeroSample
  {
    var y :- m.load(buffer);
    var w := Pad(y, ZeroSample, TargetSr);
    assert |w| >= TargetSr && y <= w by {
      PadKeepsPrefix(y, ZeroSample, TargetSr);
    }
    m.normalize(w)
  }

  /** Everything inside the try block of `analyze` that may raise: it fails
      exactly when loading, normalising the padded waveform or inference
      fails, carrying the first failing step's text unchanged, and otherwise
      yields the classifier's prediction for the normalised waveform. */
  function Predict(m: Model, buffer: Bytes): (r: Result<Prediction>)
    ensures r.Err? <==>
      || m.load(buffer).Err?
      || m.normalize(Pad(m.load(buffer).value, ZeroSample, TargetSr)).Err?
      || m.infer(m.normalize(Pad(m.load(buffer).value, ZeroSample, TargetSr)).value).Err?
    ensures m.load(buffer).Err? ==> r == Err(m.load(buffer).message)
    ensures m.load(buffer).Ok? && m.normalize(Pad(m.load(buffer).value, ZeroSample, TargetSr)).Err? ==>
      r == Err(m.normalize(Pad(m.load(buffer).value, ZeroSample, TargetSr)).message)
    ensures m.load(buffer).Ok? && m.normalize(Pad(m.load(buffer).value, ZeroSample, TargetSr)).Ok? ==>
      r == m.infer(m.normalize(Pad(m.load(buffer).value, ZeroSample, TargetSr)).value)
  {
    var input :- Preprocess(m, buffer);
    m.infer(input)
  }

  /** `analyze`: never fails. A prediction is mapped to its verdict; any
      failure of loading, normalisation or inference becomes the fallback. */
  function Analyze(m: Model, buffer: Bytes, language: string): (a: Analysis)
    ensures Predict(m, buffer).Ok? ==> a == FromPrediction(Predict(m, buffer).value, m.roundScore)
    ensures Predict(m, buffer).Err? ==> a == Fallback(Predict(m, buffer).message)
  {
    match Predict(m, buffer)
    case Ok(p) => FromPrediction(p, m.roundScore)
    case Err(e) => Fallback(e)
  }

  /** A failure of any step inside `analyze` — loading, normalisation of
      the padded waveform, or inference — yields HUMAN with confidence 0.0
      and an explanation that is the error prefix followed by the failing
      step's text. */
  lemma AnalysisFailureFallsBack(m: Model, buffer: Bytes, language: string)
    requires
      || m.load(buffer).Err?
      || m.normalize(Pad(m.load(buffer).value, ZeroSample, TargetSr)).Err?
      || m.infer(m.normalize(Pad(m.load(buffer).value, ZeroSample, TargetSr)).value).Err?
    ensures Analyze(m, buffer, language).classification == Human
    ensures Analyze(m, buffer, language).confidenceScore == 0.0
    ensures ErrorPrefix <= Analyze(m, buffer, language).explanation
    ensures m.load(buffer).Err? ==>
      Analyze(m, buffer, language).explanation == ErrorPrefix + m.load(buffer).message
    ensures m.load(buffer).Ok? && m.normalize(Pad(m.load(buffer).value, ZeroSample, TargetSr)).Err? ==>
      Analyze(m, buffer, language).explanation
      == ErrorPrefix + m.normalize(Pad(m.load(buffer).value, ZeroSample, TargetSr)).message
    ensures m.load(buffer).Ok? && m.normalize(Pad(m.load(buffer).value, ZeroSample, TargetSr)).Ok? ==>
      var input := m.normalize(Pad(m.load(buffer).value, ZeroSample, TargetSr)).value;
      m.infer(input).Err? ==> Analyze(m, buffer, language).explanation == ErrorPrefix + m.infer(input).message
  {
  }

  /** The error prefix starts neither templated sentence. */
  lemma ErrorPrefixIsNotTemplated()
    ensures !(ErrorPrefix <= AiExplanation)
    ensures !(ErrorPrefix <= HumanExplanation)
  {
    assert ErrorPrefix[0] == 'E';
    assert AiExplanation[0] == HumanExplanation[0] == ExplanationOpening[0] == 'D';
  }

  /** Every result of `analyze` is either templated or the fallback, and the
      explanation tells which: it starts with the error prefix exactly when
      the analysis failed. */
  lemma AnalysisOutcomeIsDistinguishable(m: Model, buffer: Bytes, language: string)
    ensures Templated(Analyze(m, buffer, language)) <==> Predict(m, buffer).Ok?
    ensures ErrorPrefix <= Analyze(m, buffer, language).explanation <==> Predict(m, buffer).Err?
  {
    ErrorPrefixIsNotTemplated();
    var a := Analyze(m, buffer, language);
    if Predict(m, buffer).Err? {
      assert a.explanation[..|ErrorPrefix|] == ErrorPrefix;
      assert a.explanation != HumanExplanation && a.explanation != AiExplanation;
    }
  }
}
