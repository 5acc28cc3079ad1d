# AI voice detection service — decision logic in Dafny

The service exposes one endpoint, `POST /api/voice-detection`. It takes a
base64-encoded MP3 clip, a spoken language and an audio format, and says
whether the speech is human or AI-generated. It answers with a
classification (`AI_GENERATED` or `HUMAN`), a confidence score and an
explanation sentence. A pretrained neural classifier does the judging. The
repository's own logic is small, and it is what this project models:

- **Padding** (`Detector.Pad`): a waveform shorter than one second at
  16 kHz (16000 samples) is right-padded with zero samples to exactly
  16000. A waveform of at least 16000 samples is left alone.
- **Label mapping** (`Detector.IsAi`, `Detector.FromPrediction`): the
  classifier's predicted class index and class name become a verdict.
  The rule is a priority-ordered, case-insensitive substring test:
  - "fake", "spoof" or "ai" in the name means AI.
  - Otherwise "real", "bonafide" or "human" means HUMAN.
  - Otherwise index 1 means AI and any other index means HUMAN.

  The explanation is one of two fixed sentences, picked by the
  classification.
- **Analysis fallback** (`Detector.Analyze`): any failure while loading,
  normalising or classifying becomes a HUMAN verdict. It has confidence
  0.0 and the explanation "Error during analysis: " followed by the
  failure's text.
- **Endpoint** (`Api.DetectVoice`): three gates, in this order:
  - The API key must match the configured secret (401 otherwise).
  - The language must be one of Tamil, English, Hindi, Malayalam or
    Telugu, exact and case-sensitive (400 otherwise).
  - The lower-cased format must be "mp3" (400 otherwise).

  An admitted request is then decoded, transcoded and analysed. A
  decoding or transcoding failure gives an error body. Success copies
  the analysis into a success body.

Layout:

- `wrappers.dfy`: `Option` and `Result`. A Python exception is an `Err`
  carrying its text.
- `text.dfy`: ASCII lower-casing (`Lower`) and Python's substring test
  `sub in s` (`Contains`). Each is proved against a reference definition:
  per-character lowering, and "occurs at some index".
- `detector.dfy`: `detector.py`, covering padding, label mapping,
  response construction and the catch-all.
- `api.dfy`: `main.py`, covering the constants, the gates, the try block
  and its error body.

Steps the model does not interpret are fields of a datatype, each a total
function:

- `Detector.Model`: audio loading with resampling, peak normalisation and
  classifier inference, each of which may return `Err`; and rounding of
  the score, which always gives a value.
- `Api.Services`: base64 decoding and MP3-to-WAV transcoding, each of
  which may return `Err`.

`Api.Outcome` records which pipeline steps a request started. This is how
the model states that a rejected request starts none of them.

Behaviour of the code worth noting:

- An unsupported format gets 400 with the fixed text "Only MP3 format is
  supported" (main.py:35). The text does not name the format, and
  `Api.Gate` uses the same fixed text.
- Every index other than 1 falls back to HUMAN (detector.py:84), and so
  it does in `Detector.IsAi`.
- The transcoder hands back the original bytes instead of failing
  (utils.py:17-24). The model still lets transcoding fail. A transcoder
  that never fails is one case of that.

## Model

| member | source | states |
|---|---|---|
| Text.Lower | detector.py:78-80 | lower-casing keeps the length and lowers each ASCII letter, leaving other characters alone |
| Text.LowerIdempotent | detector.py:78-80 | a lower-cased label has no upper-case ASCII letter and lowering it again changes nothing |
| Text.LowerEqualIffEqualIgnoringCase | detector.py:78-80 | two strings have the same lower-case form exactly when they differ only in the case of ASCII letters |
| Text.Contains | detector.py:78-80 | the `in` test on strings is true exactly when the marker occurs at some index of the label |
| Detector.Pad | detector.py:32-34 | a waveform shorter than the target gets exactly the target length, keeps its samples as a prefix and is zero after them; a longer one is returned unchanged |
| Detector.PadKeepsPrefix | detector.py:32-34 | padding reaches at least the target length, never shortens, and keeps the input as a prefix |
| Detector.PadIdempotent | detector.py:32-34 | padding an already padded waveform changes nothing |
| Detector.IsAi | detector.py:77-84 | an AI marker in the lower-cased label gives AI; else a human marker gives HUMAN; else AI exactly when the index is 1 |
| Detector.ClassificationName | detector.py:87-92 | the classification text is one of "AI_GENERATED" and "HUMAN", and is "AI_GENERATED" exactly for the AI verdict |
| Detector.FromPrediction | detector.py:86-98 | the verdict is AI exactly when the label rule says so, the explanation is the sentence belonging to the verdict, and the score is the rounded confidence |
| Detector.Fallback | detector.py:100-107 | a caught failure gives HUMAN, confidence 0.0, and an explanation made of the error prefix followed by the failure's text |
| Detector.AiMarkerWins | detector.py:78-79 | an AI marker anywhere in the label gives AI with the synthetic-artifacts sentence, whatever the index and whatever else the label holds |
| Detector.HumanMarkerWins | detector.py:80-81 | without an AI marker, a human marker gives HUMAN with the micro-prosody sentence, whatever the index |
| Detector.PositionalFallback | detector.py:82-84 | with no marker of either kind, the verdict is AI exactly when the index is 1 |
| Detector.LabelCaseInsensitive | detector.py:78-80 | labels equal up to ASCII letter case, with the same index, get the same verdict |
| Detector.AiInsideAnyWordWins | detector.py:78 | a lower-case label in which "ai" occurs anywhere, even inside a word, is AI |
| Detector.TrainedRealIsAi | detector.py:78-81 | "real" occurs in the label "trained_real", yet that label is AI at every index |
| Detector.Preprocess | detector.py:23-38 | a loading failure propagates unchanged; otherwise the normaliser receives a waveform of at least one second that starts with the loaded samples and is zero after them |
| Detector.Predict | detector.py:45-73 | the raising part of the analysis fails exactly when loading, normalising the padded waveform or inference fails, carrying the first failing step's text unchanged, and otherwise yields the classifier's prediction for the normalised waveform |
| Detector.Analyze | detector.py:40-107 | a successful prediction is mapped to its verdict, and any failure of loading, normalisation or inference becomes the fallback |
| Detector.AnalysisFailureFallsBack | detector.py:100-107 | a failure of loading, of normalising the padded waveform, or of inference gives HUMAN, 0.0, and an explanation that is the error prefix followed by the failing step's text |
| Detector.ErrorPrefixIsNotTemplated | detector.py:87-107 | neither fixed explanation sentence starts with the error prefix |
| Detector.AnalysisOutcomeIsDistinguishable | detector.py:87-107 | the explanation is a fixed sentence matching the verdict exactly when the analysis succeeded, and starts with the error prefix exactly when it failed |
| Api.ConfiguredApiKey | main.py:13 | the secret is the environment's value when present and "sk_test_123456789" otherwise |
| Api.Gate | main.py:26-35 | a request is let through exactly when the key matches, the language is in the allow-list and the lower-cased format is "mp3"; otherwise a 401 or 400 rejection |
| Api.Process | main.py:37-59 | the try block answers success or error, never an HTTP error; it always starts with decoding, and succeeds exactly when all three steps ran |
| Api.DetectVoice | main.py:21-59 | a request is rejected exactly when no pipeline step is started |
| Api.WrongKeyIsUnauthorized | main.py:24-28 | a wrong or missing key gets 401 whatever the language, format or payload, and no step runs |
| Api.UnsupportedLanguageIsRejected | main.py:31-32 | with the right key, a language outside the allow-list gets 400 with a message containing that language, and no step runs |
| Api.FormatGateIsCaseInsensitive | main.py:34-35 | with the right key and a supported language, the format rejection happens exactly when the lower-cased format is not "mp3" |
| Api.Mp3SpellingsPass | main.py:34 | "mp3", "MP3", "Mp3" and "mP3" pass the format gate, "wav" does not |
| Api.RejectedIffNotAdmitted | main.py:26-43 | a request is rejected exactly when it fails a gate; rejected requests start no step, admitted ones start with decoding |
| Api.SuccessCopiesAnalysis | main.py:39-52 | when decoding and transcoding succeed, the body is a success with the request's language and the analysis's classification, score and explanation, all three steps having run |
| Api.ErrorOnlyFromDecodeOrTranscode | main.py:37-59 | an error body arises exactly when an admitted request fails to decode or to transcode; it carries the failing step's text, after only decoding or after decoding and transcoding |
| Api.AnalysisFailureLooksLikeSuccess | main.py:43-52 | an admitted request whose analysis fails still gets a success body with HUMAN and confidence 0.0 |

## Left out

- Model loading and inference (detector.py:8-21, 50-73) are not modelled. The Hugging Face feature extractor, the forward pass, softmax, arg-max and the `id2label` lookup form one opaque step, `Model.infer`, returning `(index, name, probability)` or a failure.
- Audio loading and resampling (detector.py:27-29) are not modelled. They are a foreign library call, represented by the opaque `Model.load`.
- Peak normalisation (detector.py:37) is not modelled. It is floating-point arithmetic in a foreign library, represented by the opaque `Model.normalize`.
- Score rounding (detector.py:96) is not modelled. Python's `round(x, 2)` on floats is represented by the opaque `Model.roundScore`, and scores are `real`. The score bounds [0, 1] depend on the classifier and are not stated.
- Samples are integers with 0 as the padding value, not floats. `Detector.Pad` itself is generic in the sample type.
- Text.Lower: models only ASCII lower-casing, whereas Python's `str.lower` is Unicode-aware. A non-ASCII character that lowers to an ASCII letter, such as the Kelvin sign lowering to "k" (which can complete "fake"), is judged differently by the model.
- Base64 decoding and MP3-to-WAV transcoding (utils.py) are not modelled. They are the opaque, possibly failing `Services.decode` and `Services.transcode`.
- HTTP framing, routing, async handling, FastAPI's validation of the request body against `DetectionRequest` (a malformed body gets 422 before the key check at main.py:27; `Api.Request` starts from a validated body), the transport status 200 of the error body, logging, printing and the server entry point (main.py:1-10, 55, 61-62) are framework plumbing and are not modelled.
- Reading the environment variable is not modelled. `Api.ConfiguredApiKey` takes its value as a parameter.
- The `language` argument of `analyze` is accepted but unused, as in the code.
- `test_api.py` is not modelled. It starts a server and prints a response, and asserts nothing.
