/** The voice-detection endpoint: API-key check, language and format
    validation in that order, then decode, transcode and analysis, with any
    failure of the pipeline turned into an error body.

    Base64 decoding and MP3-to-WAV transcoding are not interpreted: they are
    fields of `Services`, each of which may fail. */
module Api {
  import opened Wrappers
  import opened Text
  import opened Detector

  /** The secret used when the environment supplies none. */
  const DefaultApiKey: string := "sk_test_123456789"

  const SupportedLanguages: seq<string> := ["Tamil", "English", "Hindi", "Malayalam", "Telugu"]

  const AuthFailureDetail: string := "Invalid API key or malformed request"
  const FormatFailureDetail: string := "Only MP3 format is supported"

  function LanguageFailureDetail(language: string): string {
    "Language " + language + " not supported"
  }

  datatype Request = Request(language: string, audioFormat: string, audioBase64: string)

  /** The body (or HTTP error) the endpoint answers with. */
  datatype Response =
    | Rejected(statusCode: int, detail: string)
    | Success(language: string, classification: string, confidenceScore: real, explanation: string)
    | Failed(message: string)

  /** The pipeline steps, recorded in the order they were started. */
  datatype Stage = Decoding | Transcoding | Analysing

  datatype Outcome = Outcome(response: Response, stages: seq<Stage>)

  datatype Services = Services(
    decode: string -> Result<Bytes>,
    transcode: Bytes -> Result<Bytes>,
    model: Model)

  /** The configured secret: the environment's value if present, otherwise
      the default. */
  function ConfiguredApiKey(env: Option<string>): (key: string)
    ensures env.None? ==> key == DefaultApiKey
    ensures env.Some? ==> key == env.value
  {
    match env
    case Some(k) => k
    case None => DefaultApiKey
  }

  /** The three gates, checked in order; the first that fails decides the
      rejection. A missing header never matches the secret. */
  function Gate(apiKey: string, header: Option<string>, req: Request): (rejection: Option<Response>)
    ensures rejection.Some? ==> rejection.value.Rejected?
    ensures rejection.Some? ==> rejection.value.statusCode in {400, 401}
    ensures rejection.None? <==>
      header == Some(apiKey) && req.language in SupportedLanguages && Lower(req.audioFormat) == "mp3"
  {
    if header != Some(apiKey) then
      Some(Rejected(401, AuthFailureDetail))
    else if req.language !in SupportedLanguages then
      Some(Rejected(400, LanguageFailureDetail(req.language)))
    else if Lower(req.audioFormat) != "mp3" then
      Some(Rejected(400, FormatFailureDetail))
    else
      None
  }

  /** The try block: decode, transcode, analyse, and copy the analysis into
      a success body; a decoding or transcoding failure becomes an error
      body carrying the failure's text. */
  function Process(req: Request, svc: Services): (o: Outcome)
    ensures o.response.Success? || o.response.Failed?
    ensures 1 <= |o.stages| <= 3 && o.stages[0] == Decoding
    ensures o.response.Success? <==> o.stages == [Decoding, Transcoding, Analysing]
  {
    match svc.decode(req.audioBase64)
    case Err(e) => Outcome(Failed(e), [Decoding])
    case Ok(mp3) =>
      match svc.transcode(mp3)
      case Err(e) => Outcome(Failed(e), [Decoding, Transcoding])
      case Ok(wav) =>
        var a := Analyze(svc.model, wav, req.language);
        Outcome(
          Success(req.language, ClassificationName(a.classification), a.confidenceScore, a.explanation),
          [Decoding, Transcoding, Analysing])
  }

  /** `detect_voice`. */
  function DetectVoice(env: Option<string>, header: Option<string>, req: Request, svc: Services): (o: Outcome)
    ensures o.response.Rejected? <==> o.stages == []
  {
    match Gate(ConfiguredApiKey(env), header, req)
    case Some(rejection) => Outcome(rejection, [])
    case None => Process(req, svc)
  }

  /** The request passes all three gates. */
  ghost predicate Admitted(env: Option<string>, header: Option<string>, req: Request) {
    && header == Some(ConfiguredApiKey(env))
    && req.language in SupportedLanguages
    && Lower(req.audioFormat) == "mp3"
  }

  /** A wrong or missing key gets 401 whatever the language, format or
      payload, and no pipeline step runs. */
  lemma WrongKeyIsUnauthorized(env: Option<string>, header: Option<string>, req: Request, svc: Services)
    requires header != Some(ConfiguredApiKey(env))
    ensures DetectVoice(env, header, req, svc) == Outcome(Rejected(401, AuthFailureDetail), [])
  {
  }

  /** With the right key, an unsupported language gets 400 naming that
      language, whatever the format or payload, and no step runs. */
  lemma UnsupportedLanguageIsRejected(env: Option<string>, header: Option<string>, req: Request, svc: Services)
    requires header == Some(ConfiguredApiKey(env))
    requires req.language !in SupportedLanguages
    ensures DetectVoice(env, header, req, svc) == Outcome(Rejected(400, LanguageFailureDetail(req.language)), [])
    ensures IsSubstring(req.language, DetectVoice(env, header, req, svc).response.detail)
  {
    assert OccursAt(req.language, LanguageFailureDetail(req.language), |"Language "|);
  }

  /** With the right key and a supported language, the format gate rejects
      exactly the formats whose lower-case form is not "mp3". */
  lemma FormatGateIsCaseInsensitive(env: Option<string>, header: Option<string>, req: Request, svc: Services)
    requires header == Some(ConfiguredApiKey(env))
    requires req.language in SupportedLanguages
    ensures DetectVoice(env, header, req, svc).response == Rejected(400, FormatFailureDetail)
            <==> Lower(req.audioFormat) != "mp3"
    ensures Lower(req.audioFormat) != "mp3" ==> DetectVoice(env, header, req, svc).stages == []
  {
  }

  /** "mp3" in any mix of letter case passes the format gate; "wav" does not. */
  lemma Mp3SpellingsPass()
    ensures Lower("mp3") == "mp3" && Lower("MP3") == "mp3"
    ensures Lower("Mp3") == "mp3" && Lower("mP3") == "mp3"
    ensures Lower("wav") != "mp3"
  {
    assert Lower("wav")[0] == 'w';
  }

  /** A request is rejected exactly when it fails a gate; a rejected request
      starts no pipeline step, and an admitted one is never rejected. */
  lemma RejectedIffNotAdmitted(env: Option<string>, header: Option<string>, req: Request, svc: Services)
    ensures DetectVoice(env, header, req, svc).response.Rejected? <==> !Admitted(env, header, req)
    ensures !Admitted(env, header, req) ==> DetectVoice(env, header, req, svc).stages == []
    ensures Admitted(env, header, req) ==> DetectVoice(env, header, req, svc).stages[0] == Decoding
  {
  }

  /** When decoding and transcoding succeed, the body is a success that
      carries the request's language and the analysis copied unchanged. */
  lemma SuccessCopiesAnalysis(env: Option<string>, header: Option<string>, req: Request, svc: Services)
    requires Admitted(env, header, req)
    requires svc.decode(req.audioBase64).Ok?
    requires svc.transcode(svc.decode(req.audioBase64).value).Ok?
    ensures var a := Analyze(svc.model, svc.transcode(svc.decode(req.audioBase64).value).value, req.language);
            DetectVoice(env, header, req, svc) ==
            Outcome(Success(req.language, ClassificationName(a.classification), a.confidenceScore, a.explanation),
                    [Decoding, Transcoding, Analysing])
    ensures DetectVoice(env, header, req, svc).response.classification in {"AI_GENERATED", "HUMAN"}
  {
  }

  /** An error body arises exactly when an admitted request fails to decode
      or to transcode; analysis never produces one, and the message is the
      failing step's text. */
  lemma ErrorOnlyFromDecodeOrTranscode(env: Option<string>, header: Option<string>, req: Request, svc: Services)
    ensures DetectVoice(env, header, req, svc).response.Failed? <==>
      && Admitted(env, header, req)
      && (|| svc.decode(req.audioBase64).Err?
          || svc.transcode(svc.decode(req.audioBase64).value).Err?)
    ensures Admitted(env, header, req) && svc.decode(req.audioBase64).Err? ==>
      DetectVoice(env, header, req, svc) == Outcome(Failed(svc.decode(req.audioBase64).message), [Decoding])
    ensures Admitted(env, header, req) && svc.decode(req.audioBase64).Ok?
            && svc.transcode(svc.decode(req.audioBase64).value).Err? ==>
      DetectVoice(env, header, req, svc) ==
      Outcome(Failed(svc.transcode(svc.decode(req.audioBase64).value).message), [Decoding, Transcoding])
  {
  }

  /** The inner safety net hides analysis failures from the endpoint: an
      admitted request whose analysis fails still gets a success body, with
      HUMAN and confidence 0.0. */
  lemma AnalysisFailureLooksLikeSuccess(env: Option<string>, header: Option<string>, req: Request, svc: Services)
    requires Admitted(env, header, req)
    requires svc.decode(req.audioBase64).Ok?
    requires svc.transcode(svc.decode(req.audioBase64).value).Ok?
    requires Predict(svc.model, svc.transcode(svc.decode(req.audioBase64).value).value).Err?
    ensures DetectVoice(env, header, req, svc).response.Success?
    ensures DetectVoice(env, header, req, svc).response.classification == "HUMAN"
    ensures DetectVoice(env, header, req, svc).response.confidenceScore == 0.0
  {
  }
}
