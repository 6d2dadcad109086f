/** The result page. On mount it analyses the waiting image or text, shows the
    result, and then, in the background, saves it, opens a conversation for it,
    and synthesises, uploads and attaches the spoken explanation. Follow-up
    questions are answered in the conversation.

    Every awaited call is split at the `await`: a method makes the call and
    records it, and a later method receives its outcome. The environment may run
    the pending continuations in any order, and other handlers in between. The
    record of calls and outcomes, `events`, is the trace that the ordering rules
    are stated on. */
module ResultPage {
  import opened Js
  import opened Types
  import opened Ui
  import Gemini
  import ElevenLabs
  import AppStore
  import AuthStore

  const ANALYSIS_FAILED_MESSAGE: string := "Failed to analyze homework. Please try again."
  const AUDIO_FAILED_MESSAGE: string := "Audio generation failed"
  const ANSWER_FAILED_MESSAGE: string := "Failed to get answer"

  // ---------------------------------------------------------------------------
  // Pure parts

  /** The speech-recognition language: the regional tag of the selected
      language, `en-US` when none is selected. */
  function RecognitionLang(selected: Option<Language>): (r: string)
    ensures selected.None? ==> r == "en-US"
    ensures selected.Some? ==>
              && |r| == 5 && r[..2] == ElevenLabs.LanguageCode(selected.value) && r[2] == '-'
              && 'A' <= r[3] <= 'Z' && 'A' <= r[4] <= 'Z'
  {
    match selected
    case None => "en-US"
    case Some(Spanish) => "es-ES"
    case Some(Chinese) => "zh-CN"
    case Some(Arabic) => "ar-SA"
    case Some(Vietnamese) => "vi-VN"
    case Some(French) => "fr-FR"
    case Some(Hindi) => "hi-IN"
    case Some(Portuguese) => "pt-BR"
  }

  /** The profile has a language selected. */
  predicate HasLanguage(profile: Option<UserProfile>) {
    profile.Some? && profile.value.selectedLanguage.Some?
  }

  /** The request the mount effect sends: the captured image when there is one,
      the typed text otherwise. `hintsMode` is read from a store field that does
      not exist, so it is always the default, false. */
  function AnalysisRequest(image: Option<string>, text: Option<string>, profile: UserProfile)
    : (r: Gemini.InferenceRequest)
    requires profile.selectedLanguage.Some? && (Truthy(image) || Truthy(text))
    ensures Truthy(image) ==>
              && r.ImageRequest? && r.prompt.ImagePrompt?
              && r.image == Gemini.InlineData(Gemini.DataUrlToBase64(image.value).base64,
                                              Gemini.DataUrlToBase64(image.value).mimeType)
    ensures !r.prompt.FollowUpPrompt?
    ensures !Truthy(image) ==> r.TextRequest? && r.prompt.TextPrompt? && r.prompt.homeworkText == text.value
    ensures r.prompt.targetLanguage == LanguageId(profile.selectedLanguage.value)
    ensures r.prompt.gradeLevelInstruction == Gemini.GradeLevelInstruction(profile.gradeLevel)
    ensures r.prompt.explanationInstruction == Gemini.ExplanationInstruction(false, profile.selectedLanguage.value)
  {
    var language := profile.selectedLanguage.value;
    if Truthy(image) then Gemini.HomeworkRequest(image.value, language, profile.gradeLevel, false)
    else Gemini.TextAnalysisRequest(text.value, language, profile.gradeLevel, false)
  }

  /** The result shown once the analysis arrives: no `id` and no `audioUrl` yet,
      and the image's data URL, or `''` for typed text, as `imageUrl`. */
  function ShownResult(a: GeminiAnalysis, uid: string, image: Option<string>, language: Language, now: int)
    : HomeworkResult
  {
    HomeworkResult(None, uid, image.GetOr(""), a.originalText, a.translatedText, a.explanation,
                   a.sourceLanguage, language, a.subject, now, None)
  }

  // ---------------------------------------------------------------------------
  // The trace of calls and outcomes

  /** One call the page makes, one outcome it receives, or one visible effect. */
  datatype Event =
    | Screen(effect: Effect)
    | AnalyzeCalled(request: Gemini.InferenceRequest)
    | AnalysisReturned(succeeded: bool)
    | SaveCalled(record: HomeworkResult)
    | SaveReturned(docId: Option<string>)
    | CreateConversationCalled(homeworkId: string, userId: string)
    | ConversationReturned(conversationId: Option<string>)
    | SpeechCalled(speech: ElevenLabs.SpeechRequest)
    | SpeechReturned(succeeded: bool)
    | UploadCalled(userId: string)
    | UploadReturned(downloadUrl: Option<string>)
    | AudioUrlUpdated(homeworkId: string, audioUrl: string)
    | MessageWritten(conversation: string, message: ConversationMessage)
    | FollowUpAsked(question: string, context: string, language: Language)
    | FollowUpSpeechCalled(speech: ElevenLabs.SpeechRequest)

  /** The calls and outcomes whose mere presence the ordering rules look for. */
  datatype Step = AnalyzeStep | SaveStep | SaveOutcomeStep | ConversationStep | SpeechStep | OtherStep

  function StepOf(e: Event): Step {
    match e
    case AnalyzeCalled(_) => AnalyzeStep
    case SaveCalled(_) => SaveStep
    case SaveReturned(_) => SaveOutcomeStep
    case CreateConversationCalled(_, _) => ConversationStep
    case SpeechCalled(_) => SpeechStep
    case _ => OtherStep
  }

  /** Some event of `t` is a `k` step. */
  ghost predicate Any(t: seq<Event>, k: Step)
    decreases |t|
  {
    t != [] && (StepOf(t[|t| - 1]) == k || Any(t[..|t| - 1], k))
  }

  /** `Any` is "some index holds a `k` step". */
  lemma {:induction false} AnyIndex(t: seq<Event>, k: Step)
    ensures Any(t, k) <==> exists i :: 0 <= i < |t| && StepOf(t[i]) == k
    decreases |t|
  {
    if t != [] {
      var init := t[..|t| - 1];
      AnyIndex(init, k);
      if Any(init, k) {
        var i :| 0 <= i < |init| && StepOf(init[i]) == k;
        assert t[i] == init[i];
      }
      if exists i :: 0 <= i < |t| && StepOf(t[i]) == k {
        var i :| 0 <= i < |t| && StepOf(t[i]) == k;
        if i < |init| {
          assert init[i] == t[i];
        }
      }
    }
  }

  ghost predicate AnalysisSucceeded(t: seq<Event>) {
    AnalysisReturned(true) in t
  }

  ghost predicate SaveSucceeded(t: seq<Event>, docId: string) {
    SaveReturned(Some(docId)) in t
  }

  ghost predicate ConversationOpened(t: seq<Event>, conversationId: string) {
    ConversationReturned(Some(conversationId)) in t
  }

  ghost predicate SpeechSucceeded(t: seq<Event>) {
    SpeechReturned(true) in t
  }

  /** Whether `e` may come after the events `p`: the ordering and gating rules
      of the page. */
  ghost predicate Allowed(p: seq<Event>, e: Event) {
    match e
    case AnalyzeCalled(_) => !Any(p, AnalyzeStep)
    case AnalysisReturned(_) => Any(p, AnalyzeStep)
    case SaveCalled(rec) => AnalysisSucceeded(p) && rec.imageUrl == "" && rec.id.None? && rec.audioUrl.None?
    case SaveReturned(_) => Any(p, SaveStep) && !Any(p, SaveOutcomeStep)
    case CreateConversationCalled(d, _) => SaveSucceeded(p, d)
    case ConversationReturned(_) => Any(p, ConversationStep)
    case SpeechCalled(_) => AnalysisSucceeded(p)
    case SpeechReturned(_) => Any(p, SpeechStep)
    case UploadCalled(_) => SpeechSucceeded(p) && exists d :: SaveSucceeded(p, d)
    case AudioUrlUpdated(d, u) => SaveSucceeded(p, d) && SpeechSucceeded(p) && UploadReturned(Some(u)) in p
    case MessageWritten(c, _) => ConversationOpened(p, c)
    case _ => true
  }

  /** Every event is allowed by the events before it. */
  ghost predicate WellOrdered(t: seq<Event>)
    decreases |t|
  {
    t == [] || (WellOrdered(t[..|t| - 1]) && Allowed(t[..|t| - 1], t[|t| - 1]))
  }

  /** An allowed event keeps the trace well ordered, and adds its own step. */
  lemma Extend(t: seq<Event>, e: Event)
    requires WellOrdered(t) && Allowed(t, e)
    ensures WellOrdered(t + [e])
    ensures forall k :: Any(t + [e], k) <==> StepOf(e) == k || Any(t, k)
  {
    assert (t + [e])[..|t|] == t;
  }

  /** Each event of a well-ordered trace is allowed by the events before it. */
  lemma {:induction false} AllowedAt(t: seq<Event>, k: int)
    requires WellOrdered(t) && 0 <= k < |t|
    ensures Allowed(t[..k], t[k])
    decreases |t|
  {
    if k < |t| - 1 {
      var init := t[..|t| - 1];
      AllowedAt(init, k);
      assert init[..k] == t[..k];
    }
  }

  /** The mount effect starts at most one analysis. */
  lemma AtMostOneAnalysis(t: seq<Event>, i: int, j: int)
    requires WellOrdered(t)
    requires 0 <= i < |t| && 0 <= j < |t| && t[i].AnalyzeCalled? && t[j].AnalyzeCalled?
    ensures i == j
  {
    if i != j {
      var (a, b) := if i < j then (i, j) else (j, i);
      AllowedAt(t, b);
      AnyIndex(t[..b], AnalyzeStep);
    }
  }

  /** The save settles at most once. */
  lemma AtMostOneSaveOutcome(t: seq<Event>, i: int, j: int)
    requires WellOrdered(t)
    requires 0 <= i < |t| && 0 <= j < |t| && t[i].SaveReturned? && t[j].SaveReturned?
    ensures i == j
  {
    if i != j {
      var (a, b) := if i < j then (i, j) else (j, i);
      AllowedAt(t, b);
      AnyIndex(t[..b], SaveOutcomeStep);
    }
  }

  /** A durable write that depends on the saved homework: creating its
      conversation, uploading its audio, attaching the audio URL, or writing a
      message to the conversation. */
  predicate DependsOnSave(e: Event) {
    e.CreateConversationCalled? || e.UploadCalled? || e.AudioUrlUpdated? || e.MessageWritten?
  }

  /** Every such write comes after the save returned a document id. */
  lemma DurableWriteNeedsSave(t: seq<Event>, k: int)
    requires WellOrdered(t) && 0 <= k < |t| && DependsOnSave(t[k])
    ensures exists i :: 0 <= i < k && t[i].SaveReturned? && t[i].docId.Some?
  {
    AllowedAt(t, k);
    var d: string;
    var before: int;
    if t[k].MessageWritten? {
      var j :| 0 <= j < k && t[..k][j] == ConversationReturned(Some(t[k].conversation));
      assert t[j] == t[..k][j];
      AllowedAt(t, j);
      AnyIndex(t[..j], ConversationStep);
      var i :| 0 <= i < j && StepOf(t[..j][i]) == ConversationStep;
      assert t[i] == t[..j][i];
      AllowedAt(t, i);
      d, before := t[i].homeworkId, i;
    } else if t[k].UploadCalled? {
      d :| SaveSucceeded(t[..k], d);
      before := k;
    } else {
      d, before := t[k].homeworkId, k;
    }
    var h :| 0 <= h < before && t[..before][h] == SaveReturned(Some(d));
    assert t[h] == t[..before][h];
  }

  /** When the save failed, nothing that depends on it is ever attempted: no
      conversation, no audio upload, no audio URL, no durable message. */
  lemma FailedSaveStopsPersistence(t: seq<Event>)
    requires WellOrdered(t) && SaveReturned(None) in t
    ensures forall k :: 0 <= k < |t| ==> !DependsOnSave(t[k])
  {
    var f :| 0 <= f < |t| && t[f] == SaveReturned(None);
    forall k | 0 <= k < |t| ensures !DependsOnSave(t[k]) {
      if DependsOnSave(t[k]) {
        DurableWriteNeedsSave(t, k);
        var i :| 0 <= i < k && t[i].SaveReturned? && t[i].docId.Some?;
        AtMostOneSaveOutcome(t, i, f);
      }
    }
  }

  /** The audio URL is attached only to a saved homework, after the speech
      succeeded and the upload returned that URL. */
  lemma AudioUrlNeedsSpeechAndUpload(t: seq<Event>, k: int)
    requires WellOrdered(t) && 0 <= k < |t| && t[k].AudioUrlUpdated?
    ensures SaveSucceeded(t[..k], t[k].homeworkId)
    ensures SpeechSucceeded(t[..k]) && UploadReturned(Some(t[k].audioUrl)) in t[..k]
  {
    AllowedAt(t, k);
  }

  /** Every saved record has an empty `imageUrl`, no `id` and no `audioUrl`, and
      is saved only after an analysis succeeded. */
  lemma SavedRecordsHaveNoImage(t: seq<Event>, k: int)
    requires WellOrdered(t) && 0 <= k < |t| && t[k].SaveCalled?
    ensures t[k].record.imageUrl == "" && t[k].record.id.None? && t[k].record.audioUrl.None?
    ensures exists i :: 0 <= i < k && t[i] == AnalysisReturned(true)
  {
    AllowedAt(t, k);
    var i :| 0 <= i < k && t[..k][i] == AnalysisReturned(true);
    assert t[i] == t[..k][i];
  }

  // ---------------------------------------------------------------------------
  // The page's state and what it says about the trace

  datatype AnalysisStage = Idle | Running | Analyzed(analysis: GeminiAnalysis) | AnalysisFailed

  /** The background save: `savePromise` settles with the document id once the
      conversation attempt is over, or with null when the save failed. */
  datatype SaveStage = NotSaving | Saving | Conversing(docId: string) | Settled(result: Option<string>)

  /** The background audio chain started by the zero-delay timer. */
  datatype AudioStage =
    | NoAudio
    | TimerPending
    | Synthesizing
    | AwaitingSave(blob: seq<bv8>)
    | Uploading(homeworkId: string)
    | AudioDone

  datatype FollowUpStage = Asking | Speaking

  /** A follow-up whose answer is awaited, with the conversation id and the
      language its handler saw. */
  datatype FollowUp = FollowUp(conversationId: Option<string>, language: Language, stage: FollowUpStage)

  /** The page's own state, as one value. */
  datatype Locals = Locals(
    hasStarted: bool,
    audioUrl: Option<string>,
    followUpText: string,
    followUpAudioUrl: Option<string>,
    isAnswering: bool,
    conversationId: Option<string>,
    analysis: AnalysisStage,
    save: SaveStage,
    audio: AudioStage,
    followUps: seq<FollowUp>)

  /** Every pending follow-up saw no conversation id, or the page's. */
  predicate FollowUpIds(fs: seq<FollowUp>, c: Option<string>) {
    forall k :: 0 <= k < |fs| ==> fs[k].conversationId.None? || fs[k].conversationId == c
  }

  /** What the page's state says about the trace `t`; `ready` is "there is a
      user and a selected language". */
  ghost predicate Consistent(t: seq<Event>, l: Locals, ready: bool) {
    && WellOrdered(t)
    && (l.hasStarted <==> !l.analysis.Idle?)
    && (!l.analysis.Idle? ==> ready)
    && (l.analysis.Idle? ==> !Any(t, AnalyzeStep))
    && (l.analysis.Running? ==> Any(t, AnalyzeStep))
    && (l.analysis.Analyzed? ==> AnalysisSucceeded(t))
    && (!l.analysis.Analyzed? ==> l.save.NotSaving? && l.audio.NoAudio?)
    && (l.save.Saving? ==> Any(t, SaveStep))
    && (l.save.NotSaving? || l.save.Saving? ==> !Any(t, SaveOutcomeStep))
    && (l.save.Conversing? ==> SaveSucceeded(t, l.save.docId) && Any(t, ConversationStep))
    && (l.save.Settled? && l.save.result.Some? ==> SaveSucceeded(t, l.save.result.value))
    && (!l.save.Settled? ==> l.conversationId.None?)
    && (l.conversationId.Some? ==> ConversationOpened(t, l.conversationId.value))
    && (l.audio.Synthesizing? ==> Any(t, SpeechStep))
    && (l.audio.AwaitingSave? || l.audio.Uploading? ==> SpeechSucceeded(t))
    && (l.audio.Uploading? ==> SaveSucceeded(t, l.audio.homeworkId))
    && FollowUpIds(l.followUps, l.conversationId)
  }

  /** The two states agree on everything `Consistent` looks at except the follow-ups. */
  predicate SameStages(l: Locals, l': Locals) {
    && l'.hasStarted == l.hasStarted && l'.conversationId == l.conversationId
    && l'.analysis == l.analysis && l'.save == l.save && l'.audio == l.audio
  }

  /** A toast, a navigation, a question or an answer's speech request needs nothing. */
  lemma FreeStep(t: seq<Event>, l: Locals, ready: bool, e: Event)
    requires Consistent(t, l, ready) && (e.Screen? || e.FollowUpAsked? || e.FollowUpSpeechCalled?)
    ensures Consistent(t + [e], l, ready)
  {
    Extend(t, e);
  }

  /** The conversation write `if (conversationId) addConversationMessage(...)`
      makes for the id `c` the handler saw. */
  function Written(c: Option<string>, m: ConversationMessage): seq<Event> {
    if Truthy(c) then [MessageWritten(c.value, m)] else []
  }

  /** A message is written only to the conversation the page knows of. */
  lemma MessageStep(t: seq<Event>, l: Locals, ready: bool, c: Option<string>, m: ConversationMessage)
    requires Consistent(t, l, ready) && (!Truthy(c) || c == l.conversationId)
    ensures Consistent(t + Written(c, m), l, ready)
  {
    if !Truthy(c) {
      assert t + Written(c, m) == t;
    } else {
      Extend(t, MessageWritten(c.value, m));
    }
  }

  /** The mount effect starts the analysis. */
  lemma StartStep(t: seq<Event>, l: Locals, ready: bool, request: Gemini.InferenceRequest, l': Locals)
    requires Consistent(t, l, ready) && !l.hasStarted && ready
    requires l' == l.(hasStarted := true, analysis := Running)
    ensures Consistent(t + [AnalyzeCalled(request)], l', ready)
  {
    Extend(t, AnalyzeCalled(request));
  }

  /** The analysis failed: the page toasts and goes back to `/home`. */
  lemma AnalysisFailedStep(t: seq<Event>, l: Locals, ready: bool)
    requires Consistent(t, l, ready) && l.analysis.Running?
    ensures Consistent(t + [AnalysisReturned(false), Screen(ToastError(ANALYSIS_FAILED_MESSAGE)),
                            Screen(Navigate("/home"))], l.(analysis := AnalysisFailed), ready)
  {
    var t1 := t + [AnalysisReturned(false)];
    Extend(t, AnalysisReturned(false));
    FreeStep(t1, l.(analysis := AnalysisFailed), ready, Screen(ToastError(ANALYSIS_FAILED_MESSAGE)));
    FreeStep(t1 + [Screen(ToastError(ANALYSIS_FAILED_MESSAGE))], l.(analysis := AnalysisFailed), ready,
             Screen(Navigate("/home")));
    assert t + [AnalysisReturned(false), Screen(ToastError(ANALYSIS_FAILED_MESSAGE)), Screen(Navigate("/home"))]
        == t1 + [Screen(ToastError(ANALYSIS_FAILED_MESSAGE))] + [Screen(Navigate("/home"))];
  }

  /** The analysis succeeded: the record is saved and the audio timer set. */
  lemma AnalyzedStep(t: seq<Event>, l: Locals, ready: bool, a: GeminiAnalysis, record: HomeworkResult)
    requires Consistent(t, l, ready) && l.analysis.Running?
    requires record.imageUrl == "" && record.id.None? && record.audioUrl.None?
    ensures Consistent(t + [AnalysisReturned(true), SaveCalled(record)],
                       l.(analysis := Analyzed(a), save := Saving, audio := TimerPending), ready)
  {
    Extend(t, AnalysisReturned(true));
    Extend(t + [AnalysisReturned(true)], SaveCalled(record));
    assert t + [AnalysisReturned(true), SaveCalled(record)] == t + [AnalysisReturned(true)] + [SaveCalled(record)];
  }

  lemma SavedStep(t: seq<Event>, l: Locals, ready: bool, docId: string, uid: string)
    requires Consistent(t, l, ready) && l.save.Saving?
    ensures Consistent(t + [SaveReturned(Some(docId)), CreateConversationCalled(docId, uid)],
                       l.(save := Conversing(docId)), ready)
  {
    Extend(t, SaveReturned(Some(docId)));
    Extend(t + [SaveReturned(Some(docId))], CreateConversationCalled(docId, uid));
    assert t + [SaveReturned(Some(docId)), CreateConversationCalled(docId, uid)]
        == t + [SaveReturned(Some(docId))] + [CreateConversationCalled(docId, uid)];
  }

  lemma SaveFailedStep(t: seq<Event>, l: Locals, ready: bool)
    requires Consistent(t, l, ready) && l.save.Saving?
    ensures Consistent(t + [SaveReturned(None)], l.(save := Settled(None)), ready)
  {
    Extend(t, SaveReturned(None));
  }

  /** The conversation attempt ended; `c` is the conversation id it returned, if any. */
  lemma ConversationStepTaken(t: seq<Event>, l: Locals, ready: bool, c: Option<string>)
    requires Consistent(t, l, ready) && l.save.Conversing?
    ensures Consistent(t + [ConversationReturned(c)],
                       l.(conversationId := if c.Some? then c else l.conversationId,
                          save := Settled(Some(l.save.docId))), ready)
  {
    Extend(t, ConversationReturned(c));
  }

  lemma SpeechCalledStep(t: seq<Event>, l: Locals, ready: bool, speech: ElevenLabs.SpeechRequest)
    requires Consistent(t, l, ready) && l.audio.TimerPending?
    ensures Consistent(t + [SpeechCalled(speech)], l.(audio := Synthesizing), ready)
  {
    Extend(t, SpeechCalled(speech));
  }

  lemma SpeechOkStep(t: seq<Event>, l: Locals, ready: bool, blobUrl: string, blob: seq<bv8>)
    requires Consistent(t, l, ready) && l.audio.Synthesizing?
    ensures Consistent(t + [SpeechReturned(true)], l.(audioUrl := Some(blobUrl), audio := AwaitingSave(blob)), ready)
  {
    Extend(t, SpeechReturned(true));
  }

  /** The speech failed: the page toasts. */
  lemma SpeechFailedStep(t: seq<Event>, l: Locals, ready: bool)
    requires Consistent(t, l, ready) && l.audio.Synthesizing?
    ensures Consistent(t + [SpeechReturned(false), Screen(ToastError(AUDIO_FAILED_MESSAGE))],
                       l.(audio := AudioDone), ready)
  {
    Extend(t, SpeechReturned(false));
    FreeStep(t + [SpeechReturned(false)], l.(audio := AudioDone), ready, Screen(ToastError(AUDIO_FAILED_MESSAGE)));
    assert t + [SpeechReturned(false), Screen(ToastError(AUDIO_FAILED_MESSAGE))]
        == t + [SpeechReturned(false)] + [Screen(ToastError(AUDIO_FAILED_MESSAGE))];
  }

  /** The save settled while the audio waited: upload when it gave an id. */
  lemma UploadStep(t: seq<Event>, l: Locals, ready: bool, uid: string)
    requires Consistent(t, l, ready) && l.audio.AwaitingSave? && l.save.Settled?
    ensures !Truthy(l.save.result) ==> Consistent(t, l.(audio := AudioDone), ready)
    ensures Truthy(l.save.result) ==>
              Consistent(t + [UploadCalled(uid)], l.(audio := Uploading(l.save.result.value)), ready)
  {
    if Truthy(l.save.result) {
      Extend(t, UploadCalled(uid));
    }
  }

  /** The upload ended; `url` is the download URL it returned, if any. */
  lemma UploadSettledStep(t: seq<Event>, l: Locals, ready: bool, url: Option<string>)
    requires Consistent(t, l, ready) && l.audio.Uploading?
    ensures url.None? ==> Consistent(t + [UploadReturned(url)], l.(audio := AudioDone), ready)
    ensures url.Some? ==>
              Consistent(t + [UploadReturned(url), AudioUrlUpdated(l.audio.homeworkId, url.value)],
                         l.(audio := AudioDone), ready)
  {
    Extend(t, UploadReturned(url));
    if url.Some? {
      var e := AudioUrlUpdated(l.audio.homeworkId, url.value);
      Extend(t + [UploadReturned(url)], e);
      assert t + [UploadReturned(url), e] == t + [UploadReturned(url)] + [e];
    }
  }

  /** A follow-up is submitted: the question is written to the conversation the
      page knows of, if any, and asked; the follow-up is pending. */
  lemma AskedStep(t: seq<Event>, l: Locals, ready: bool, m: ConversationMessage, asked: Event, l': Locals)
    requires Consistent(t, l, ready) && asked.FollowUpAsked?
    requires SameStages(l, l') && l'.followUps == l.followUps + [FollowUp(l.conversationId, asked.language, Asking)]
    ensures Consistent(t + Written(l.conversationId, m) + [asked], l', ready)
  {
    MessageStep(t, l, ready, l.conversationId, m);
    FreeStep(t + Written(l.conversationId, m), l, ready, asked);
    FollowUpAdded(t + Written(l.conversationId, m) + [asked], l, l', ready, FollowUp(l.conversationId, asked.language, Asking));
  }

  /** Follow-up `k` is answered: the answer is written to the conversation the
      handler saw, if any, and its speech is requested. */
  lemma AnsweredStep(t: seq<Event>, l: Locals, ready: bool, k: nat, m: ConversationMessage,
                     speech: Event, l': Locals)
    requires Consistent(t, l, ready) && k < |l.followUps| && speech.FollowUpSpeechCalled?
    requires SameStages(l, l') && l'.followUps == l.followUps[k := l.followUps[k].(stage := Speaking)]
    ensures Consistent(t + Written(l.followUps[k].conversationId, m) + [speech], l', ready)
  {
    var c := l.followUps[k].conversationId;
    MessageStep(t, l, ready, c, m);
    FreeStep(t + Written(c, m), l, ready, speech);
    FollowUpAdvanced(t + Written(c, m) + [speech], l, l', ready, k);
  }

  /** Follow-up `k` failed: the page toasts and the follow-up ends. */
  lemma AnswerFailedStep(t: seq<Event>, l: Locals, ready: bool, k: nat, l': Locals)
    requires Consistent(t, l, ready) && k < |l.followUps|
    requires SameStages(l, l') && l'.followUps == l.followUps[..k] + l.followUps[k + 1..]
    ensures Consistent(t + [Screen(ToastError(ANSWER_FAILED_MESSAGE))], l', ready)
  {
    FreeStep(t, l, ready, Screen(ToastError(ANSWER_FAILED_MESSAGE)));
    FollowUpRemoved(t + [Screen(ToastError(ANSWER_FAILED_MESSAGE))], l, l', ready, k);
  }

  /** The box, the audio URLs and the busy flag do not matter to the trace. */
  lemma UiStep(t: seq<Event>, l: Locals, l': Locals, ready: bool)
    requires Consistent(t, l, ready) && SameStages(l, l') && l'.followUps == l.followUps
    ensures Consistent(t, l', ready)
  {
  }

  /** A new follow-up that saw the page's conversation id. */
  lemma FollowUpAdded(t: seq<Event>, l: Locals, l': Locals, ready: bool, f: FollowUp)
    requires Consistent(t, l, ready) && SameStages(l, l')
    requires f.conversationId == l.conversationId && l'.followUps == l.followUps + [f]
    ensures Consistent(t, l', ready)
  {
    forall j | 0 <= j < |l'.followUps|
      ensures l'.followUps[j].conversationId.None? || l'.followUps[j].conversationId == l.conversationId
    {
      if j < |l.followUps| {
        assert l'.followUps[j] == l.followUps[j];
      }
    }
  }

  /** Follow-up `k` moves on to its speech. */
  lemma FollowUpAdvanced(t: seq<Event>, l: Locals, l': Locals, ready: bool, k: nat)
    requires Consistent(t, l, ready) && SameStages(l, l') && k < |l.followUps|
    requires l'.followUps == l.followUps[k := l.followUps[k].(stage := Speaking)]
    ensures Consistent(t, l', ready)
  {
    assert forall j :: 0 <= j < |l.followUps| ==> l'.followUps[j].conversationId == l.followUps[j].conversationId;
  }

  /** Follow-up `k` ends. */
  lemma FollowUpRemoved(t: seq<Event>, l: Locals, l': Locals, ready: bool, k: nat)
    requires Consistent(t, l, ready) && SameStages(l, l') && k < |l.followUps|
    requires l'.followUps == l.followUps[..k] + l.followUps[k + 1..]
    ensures Consistent(t, l', ready)
  {
    var fs, fs' := l.followUps, l'.followUps;
    forall j | 0 <= j < |fs'| ensures fs'[j].conversationId.None? || fs'[j].conversationId == l.conversationId {
      if j < k {
        assert fs'[j] == fs[j];
      } else {
        assert fs'[j] == fs[j + 1];
      }
    }
  }

  // ---------------------------------------------------------------------------
  // The page

  class Page {
    const store: AppStore.Store
    /** The signed-in user and profile as the first rendering saw them. */
    const user: Option<AuthStore.User>
    const profile: Option<UserProfile>
    /** The store's input and result as the first rendering saw them; the
        mount effect's closure reads these. */
    const initialImage: Option<string>
    const initialText: Option<string>
    const initialResult: Option<HomeworkResult>

    var hasStarted: bool
    var audioUrl: Option<string>
    var followUpText: string
    var followUpAudioUrl: Option<string>
    var isAnswering: bool
    var conversationId: Option<string>
    var analysis: AnalysisStage
    var save: SaveStage
    var audio: AudioStage
    var followUps: seq<FollowUp>
    /** Calls made and outcomes received, oldest first. */
    ghost var events: seq<Event>

    function State(): Locals
      reads this
    {
      Locals(hasStarted, audioUrl, followUpText, followUpAudioUrl, isAnswering, conversationId,
             analysis, save, audio, followUps)
    }

    /** There is a user and a selected language. */
    predicate Ready() {
      user.Some? && HasLanguage(profile)
    }

    /** The uid of the mount-time user (only meaningful once an analysis started). */
    function Uid(): string {
      if user.Some? then user.value.uid else ""
    }

    /** The mount-time language (only meaningful once an analysis started). */
    function Lang(): Language {
      if HasLanguage(profile) then profile.value.selectedLanguage.value else Spanish
    }

    ghost predicate Valid()
      reads this
    {
      Consistent(events, State(), Ready())
    }

    constructor(store: AppStore.Store, user: Option<AuthStore.User>, profile: Option<UserProfile>)
      ensures this.store == store && this.user == user && this.profile == profile
      ensures initialImage == store.capturedImage && initialText == store.typedText
      ensures initialResult == store.currentResult
      ensures State() == Locals(false, None, "", None, false, None, Idle, NotSaving, NoAudio, [])
      ensures events == [] && Valid()
    {
      this.store, this.user, this.profile := store, user, profile;
      initialImage, initialText, initialResult := store.capturedImage, store.typedText, store.currentResult;
      hasStarted, audioUrl, followUpText, followUpAudioUrl, isAnswering := false, None, "", None, false;
      conversationId, analysis, save, audio, followUps := None, Idle, NotSaving, NoAudio, [];
      events := [];
    }

    /** The mount effect; it may run more than once. Without input, user or
        language it goes back to `/home`; with a result already shown, or once
        started, it does nothing; otherwise it starts the one analysis. */
    method MountEffect()
      requires Valid()
      modifies this, store
      ensures Valid()
      ensures var hasInput := Truthy(initialImage) || Truthy(initialText);
              if !hasInput || !Ready() then
                && events == old(events) + [Screen(Navigate("/home"))]
                && State() == old(State()) && store.State() == old(store.State())
              else if initialResult.Some? || old(hasStarted) then
                events == old(events) && State() == old(State()) && store.State() == old(store.State())
              else
                && events == old(events) + [AnalyzeCalled(AnalysisRequest(initialImage, initialText, profile.value))]
                && State() == old(State()).(hasStarted := true, analysis := Running)
                && store.State() == old(store.State()).(isAnalyzing := true)
    {
      var hasInput := Truthy(initialImage) || Truthy(initialText);
      if !hasInput || !Ready() {
        FreeStep(events, State(), Ready(), Screen(Navigate("/home")));
        events := events + [Screen(Navigate("/home"))];
        return;
      }
      if initialResult.Some? || hasStarted {
        return;
      }
      StartAnalysis();
    }

    /** `run` up to its `await`: the one analysis is requested. */
    method StartAnalysis()
      requires Valid() && Ready() && !hasStarted && (Truthy(initialImage) || Truthy(initialText))
      modifies this, store
      ensures Valid()
      ensures events == old(events) + [AnalyzeCalled(AnalysisRequest(initialImage, initialText, profile.value))]
      ensures State() == old(State()).(hasStarted := true, analysis := Running)
      ensures store.State() == old(store.State()).(isAnalyzing := true)
    {
      var request := AnalysisRequest(initialImage, initialText, profile.value);
      ghost var l' := Locals(true, audioUrl, followUpText, followUpAudioUrl, isAnswering, conversationId,
                             Running, save, audio, followUps);
      StartStep(events, State(), Ready(), request, l');
      events, hasStarted, analysis := events + [AnalyzeCalled(request)], true, Running;
      assert State() == l';
      store.SetIsAnalyzing(true);
    }

    /** The analysis settled with the service's `reply`. On success the result is
        shown, the inputs are cleared and the background save and the audio
        timer start; on failure the page toasts and goes back to `/home`. */
    method AnalysisSettled(reply: Result<string, ()>, parse: string -> Option<GeminiAnalysis>, now: int)
      requires Valid() && analysis.Running?
      modifies this, store
      ensures Valid()
      ensures Gemini.ParseReply(reply, parse).Err? ==>
                && events == old(events) + [AnalysisReturned(false), Screen(ToastError(ANALYSIS_FAILED_MESSAGE)),
                                            Screen(Navigate("/home"))]
                && State() == old(State()).(analysis := AnalysisFailed)
                && store.State() == old(store.State()).(isAnalyzing := false)
      ensures Gemini.ParseReply(reply, parse).Ok? ==>
                var a := Gemini.ParseReply(reply, parse).value;
                var shown := ShownResult(a, Uid(), initialImage, Lang(), now);
                && events == old(events) + [AnalysisReturned(true), SaveCalled(shown.(imageUrl := ""))]
                && State() == old(State()).(analysis := Analyzed(a), save := Saving, audio := TimerPending)
                && store.State() == old(store.State()).(currentResult := Some(shown), isAnalyzing := false,
                                                        capturedImage := None, typedText := None)
    {
      var outcome := Gemini.ParseReply(reply, parse);
      if outcome.Err? {
        AnalysisFailedStep(events, State(), Ready());
        events := events + [AnalysisReturned(false), Screen(ToastError(ANALYSIS_FAILED_MESSAGE)),
                            Screen(Navigate("/home"))];
        analysis := AnalysisFailed;
        store.SetIsAnalyzing(false);
      } else {
        ShowAnalysis(outcome.value, now);
      }
    }

    /** The analysis arrived: the result is shown, the inputs are cleared, the
        record is saved without its image and the audio timer is set. */
    method ShowAnalysis(a: GeminiAnalysis, now: int)
      requires Valid() && analysis.Running?
      modifies this, store
      ensures Valid()
      ensures var shown := ShownResult(a, Uid(), initialImage, Lang(), now);
              && events == old(events) + [AnalysisReturned(true), SaveCalled(shown.(imageUrl := ""))]
              && State() == old(State()).(analysis := Analyzed(a), save := Saving, audio := TimerPending)
              && store.State() == old(store.State()).(currentResult := Some(shown), isAnalyzing := false,
                                                      capturedImage := None, typedText := None)
    {
      var shown := ShownResult(a, Uid(), initialImage, Lang(), now);
      store.SetCurrentResult(Some(shown));
      store.SetIsAnalyzing(false);
      store.SetCapturedImage(None);
      store.SetTypedText(None);
      AnalyzedStep(events, State(), Ready(), a, shown.(imageUrl := ""));
      events := events + [AnalysisReturned(true), SaveCalled(shown.(imageUrl := ""))];
      analysis, save, audio := Analyzed(a), Saving, TimerPending;
    }

    /** `saveHomeworkResult` settled: with a document id the conversation is
        created for it; a rejection makes the save settle with null. */
    method SaveSettled(outcome: Result<string, ()>)
      requires Valid() && save.Saving?
      modifies this
      ensures Valid()
      ensures outcome.Ok? ==>
                && events == old(events) + [SaveReturned(Some(outcome.value)),
                                            CreateConversationCalled(outcome.value, Uid())]
                && State() == old(State()).(save := Conversing(outcome.value))
      ensures outcome.Err? ==>
                events == old(events) + [SaveReturned(None)] && State() == old(State()).(save := Settled(None))
    {
      if outcome.Ok? {
        SavedStep(events, State(), Ready(), outcome.value, Uid());
        events := events + [SaveReturned(Some(outcome.value)), CreateConversationCalled(outcome.value, Uid())];
        save := Conversing(outcome.value);
      } else {
        SaveFailedStep(events, State(), Ready());
        events := events + [SaveReturned(None)];
        save := Settled(None);
      }
    }

    /** `createConversation` settled. On success the conversation id is kept and
        the document id is attached to whatever result the store shows at that
        moment, if any. Either way the save settles with the document id. */
    method ConversationSettled(outcome: Result<string, ()>)
      requires Valid() && save.Conversing?
      modifies this, store
      ensures Valid()
      ensures outcome.Ok? ==>
                && events == old(events) + [ConversationReturned(Some(outcome.value))]
                && State() == old(State()).(conversationId := Some(outcome.value), save := Settled(Some(old(save).docId)))
                && store.State() == old(store.State()).(
                     currentResult := if old(store.currentResult).Some?
                                      then Some(old(store.currentResult).value.(id := Some(old(save).docId)))
                                      else None)
      ensures outcome.Err? ==>
                && events == old(events) + [ConversationReturned(None)]
                && State() == old(State()).(save := Settled(Some(old(save).docId)))
                && store.State() == old(store.State())
    {
      var d := save.docId;
      var c := if outcome.Ok? then Some(outcome.value) else None;
      ConversationStepTaken(events, State(), Ready(), c);
      events := events + [ConversationReturned(c)];
      if outcome.Ok? {
        conversationId := c;
        var cur := store.currentResult;
        if cur.Some? {
          store.SetCurrentResult(Some(cur.value.(id := Some(d))));
        }
      }
      save := Settled(Some(d));
    }

    /** The zero-delay timer fired: speech for the explanation is requested. */
    method AudioTimerFired()
      requires Valid() && audio.TimerPending? && analysis.Analyzed?
      modifies this, store
      ensures Valid()
      ensures events == old(events) + [SpeechCalled(ElevenLabs.Request(old(analysis).analysis.explanation, Lang()))]
      ensures State() == old(State()).(audio := Synthesizing)
      ensures store.State() == old(store.State()).(isGeneratingAudio := true)
    {
      store.SetIsGeneratingAudio(true);
      var speech := ElevenLabs.Request(analysis.analysis.explanation, Lang());
      SpeechCalledStep(events, State(), Ready(), speech);
      events := events + [SpeechCalled(speech)];
      audio := Synthesizing;
    }

    /** The speech request settled with `response`; `blobUrl` is the object URL
        made for its body. On success the audio is shown and waits for the save;
        on failure the page toasts. */
    method SpeechSettled(response: ElevenLabs.HttpResponse, blobUrl: string)
      requires Valid() && audio.Synthesizing?
      modifies this, store
      ensures Valid()
      ensures store.State() == old(store.State()).(isGeneratingAudio := false)
      ensures response.ok ==>
                && events == old(events) + [SpeechReturned(true)]
                && State() == old(State()).(audioUrl := Some(blobUrl), audio := AwaitingSave(response.body))
      ensures !response.ok ==>
                && events == old(events) + [SpeechReturned(false), Screen(ToastError(AUDIO_FAILED_MESSAGE))]
                && State() == old(State()).(audio := AudioDone)
    {
      var outcome := ElevenLabs.SpeechResult(response, blobUrl);
      if outcome.Ok? {
        SpeechOkStep(events, State(), Ready(), outcome.value.blobUrl, outcome.value.blob);
        events := events + [SpeechReturned(true)];
        audioUrl, audio := Some(outcome.value.blobUrl), AwaitingSave(outcome.value.blob);
      } else {
        SpeechFailedStep(events, State(), Ready());
        events := events + [SpeechReturned(false), Screen(ToastError(AUDIO_FAILED_MESSAGE))];
        audio := AudioDone;
      }
      store.SetIsGeneratingAudio(false);
    }

    /** The save settled while the audio waited for it: with a document id the
        audio is uploaded; with none (the save failed) nothing more happens. */
    method AudioSaveJoined()
      requires Valid() && audio.AwaitingSave? && save.Settled?
      modifies this
      ensures Valid()
      ensures !Truthy(old(save).result) ==> events == old(events) && State() == old(State()).(audio := AudioDone)
      ensures Truthy(old(save).result) ==>
                && events == old(events) + [UploadCalled(Uid())]
                && State() == old(State()).(audio := Uploading(old(save).result.value))
    {
      UploadStep(events, State(), Ready(), Uid());
      if !Truthy(save.result) {
        audio := AudioDone;
      } else {
        events := events + [UploadCalled(Uid())];
        audio := Uploading(save.result.value);
      }
    }

    /** The upload settled: with a download URL it is attached to the homework;
        a failed upload is only logged. */
    method UploadSettled(outcome: Result<string, ()>)
      requires Valid() && audio.Uploading?
      modifies this
      ensures Valid()
      ensures State() == old(State()).(audio := AudioDone)
      ensures outcome.Ok? ==>
                events == old(events) + [UploadReturned(Some(outcome.value)),
                                         AudioUrlUpdated(old(audio).homeworkId, outcome.value)]
      ensures outcome.Err? ==> events == old(events) + [UploadReturned(None)]
    {
      var url := if outcome.Ok? then Some(outcome.value) else None;
      UploadSettledStep(events, State(), Ready(), url);
      if outcome.Ok? {
        events := events + [UploadReturned(url), AudioUrlUpdated(audio.homeworkId, outcome.value)];
      } else {
        events := events + [UploadReturned(url)];
      }
      audio := AudioDone;
    }

    /** Typing into, or dictating into, the follow-up box. */
    method TypeFollowUp(text: string)
      requires Valid()
      modifies this
      ensures Valid() && events == old(events)
      ensures State() == old(State()).(followUpText := text)
    {
      ghost var l := State();
      followUpText := text;
      UiStep(events, l, State(), Ready());
    }

    /** `handleFollowUp` up to its `await`: a blank question, no result or no
        language does nothing; otherwise the trimmed question is asked. */
    method SubmitFollowUp(now: int)
      requires Valid()
      modifies this, store
      ensures Valid()
      ensures Trim(old(followUpText)) == "" || old(store.currentResult).None? || !HasLanguage(profile) ==>
                events == old(events) && State() == old(State()) && store.State() == old(store.State())
      ensures !(Trim(old(followUpText)) == "" || old(store.currentResult).None? || !HasLanguage(profile)) ==>
                Asked(Trim(old(followUpText)), now, old(store.currentResult).value, old(State()), old(events),
                      old(store.State()))
    {
      var q := Trim(followUpText);
      var cur := store.currentResult;
      if q == "" || cur.None? || !HasLanguage(profile) {
        return;
      }
      Ask(q, cur.value, now);
    }

    /** What asking `question` about `result` does, from the page state `l`, the
        trace `t` and the store state `s`: the question is added to the
        conversation (and written to the stored one when there is a conversation
        id), the box is cleared, and the question is asked and pending. */
    ghost predicate Asked(question: string, now: int, result: HomeworkResult, l: Locals, t: seq<Event>,
                          s: AppStore.AppState)
      reads this, store
    {
      var msg := ConversationMessage(User, question, now, None);
      && store.State() == AppStore.WithMessage(s, msg)
      && events == t + Written(l.conversationId, msg) + [FollowUpAsked(question, result.explanation, Lang())]
      && State() == l.(followUpText := "", followUpAudioUrl := None, isAnswering := true,
                       followUps := l.followUps + [FollowUp(l.conversationId, Lang(), Asking)])
    }

    /** The part of `handleFollowUp` after its checks. */
    method Ask(question: string, result: HomeworkResult, now: int)
      requires Valid() && HasLanguage(profile)
      modifies this, store
      ensures Valid()
      ensures Asked(question, now, result, old(State()), old(events), old(store.State()))
    {
      var msg := ConversationMessage(User, question, now, None);
      var asked := FollowUpAsked(question, result.explanation, Lang());
      var fu := FollowUp(conversationId, Lang(), Asking);
      ghost var t' := events + Written(conversationId, msg) + [asked];
      ghost var l' := Locals(hasStarted, audioUrl, "", None, true, conversationId,
                             analysis, save, audio, followUps + [fu]);
      AskedStep(events, State(), Ready(), msg, asked, l');
      events, followUpText, followUpAudioUrl, isAnswering, followUps := t', "", None, true, followUps + [fu];
      assert State() == l';
      store.AddMessage(msg);
    }

    /** The answer to pending follow-up `k` arrived. The reply text is the answer
        as it is; it is added after the question (and written when the handler saw
        a conversation id), then spoken. A failed question toasts and ends. */
    method FollowUpAnswered(k: nat, reply: Result<string, ()>, now: int)
      requires Valid() && k < |followUps| && followUps[k].stage.Asking?
      modifies this, store
      ensures Valid()
      ensures reply.Ok? ==>
                var f := old(followUps)[k];
                var msg := ConversationMessage(Assistant, reply.value, now, None);
                && store.State() == AppStore.WithMessage(old(store.State()), msg)
                && events == old(events) + Written(f.conversationId, msg) + [FollowUpSpeechCalled(ElevenLabs.Request(reply.value, f.language))]
                && State() == old(State()).(followUps := old(followUps)[k := f.(stage := Speaking)])
      ensures reply.Err? ==>
                && store.State() == old(store.State())
                && events == old(events) + [Screen(ToastError(ANSWER_FAILED_MESSAGE))]
                && State() == old(State()).(isAnswering := false,
                                            followUps := old(followUps)[..k] + old(followUps)[k + 1..])
    {
      var f := followUps[k];
      ghost var l := State();
      if reply.Ok? {
        var msg := ConversationMessage(Assistant, reply.value, now, None);
        store.AddMessage(msg);
        var speech := FollowUpSpeechCalled(ElevenLabs.Request(reply.value, f.language));
        ghost var t := events;
        events := events + Written(f.conversationId, msg) + [speech];
        followUps := followUps[k := f.(stage := Speaking)];
        AnsweredStep(t, l, Ready(), k, msg, speech, State());
      } else {
        ghost var t := events;
        events := events + [Screen(ToastError(ANSWER_FAILED_MESSAGE))];
        isAnswering := false;
        followUps := followUps[..k] + followUps[k + 1..];
        AnswerFailedStep(t, l, Ready(), k, State());
      }
    }

    /** The answer's speech settled: its audio is shown when it succeeded, and
        either way the follow-up ends. */
    method FollowUpSpoken(k: nat, response: ElevenLabs.HttpResponse, blobUrl: string)
      requires Valid() && k < |followUps| && followUps[k].stage.Speaking?
      modifies this
      ensures Valid() && events == old(events)
      ensures State() == old(State()).(
                followUpAudioUrl := if response.ok then Some(blobUrl) else old(followUpAudioUrl),
                isAnswering := false,
                followUps := old(followUps)[..k] + old(followUps)[k + 1..])
    {
      ghost var l := State();
      var outcome := ElevenLabs.SpeechResult(response, blobUrl);
      if outcome.Ok? {
        followUpAudioUrl := Some(outcome.value.blobUrl);
      }
      isAnswering := false;
      followUps := followUps[..k] + followUps[k + 1..];
      FollowUpRemoved(events, l, State(), Ready(), k);
    }

    /** The back button: the store is reset and the page goes to `/home`. */
    method Leave()
      requires Valid()
      modifies this, store
      ensures Valid()
      ensures store.State() == AppStore.INITIAL
      ensures events == old(events) + [Screen(Navigate("/home"))] && State() == old(State())
    {
      store.Reset();
      FreeStep(events, State(), Ready(), Screen(Navigate("/home")));
      events := events + [Screen(Navigate("/home"))];
    }
  }
}
