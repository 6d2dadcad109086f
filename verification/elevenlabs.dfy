/** The text-to-speech client: the language-code table, the request it sends
    (with the explanation cut to 4000 characters) and how the response is
    turned into an audio blob or an error. `fetch` and `URL.createObjectURL`
    are parameters. */
module ElevenLabs {
  import opened Js
  import opened Types

  /** The voice every request uses. */
  const VOICE_ID: string := "21m00Tcm4TlvDq8ikWAM"
  /** The synthesis model every request uses. */
  const MODEL_ID: string := "eleven_multilingual_v2"
  /** The longest text sent to the service. */
  const MAX_SPEECH_CHARS: nat := 4000

  /** `LANGUAGE_CODES`: the language code sent with each supported language. */
  function LanguageCode(l: Language): string {
    match l
    case Spanish => "es"
    case Chinese => "zh"
    case Arabic => "ar"
    case Vietnamese => "vi"
    case French => "fr"
    case Hindi => "hi"
    case Portuguese => "pt"
  }

  /** Every language has a two-letter lower-case code, and no two languages share one. */
  lemma LanguageCodesDistinct()
    ensures forall l: Language :: |LanguageCode(l)| == 2
    ensures forall l: Language, k :: 0 <= k < |LanguageCode(l)| ==> 'a' <= LanguageCode(l)[k] <= 'z'
    ensures forall l1: Language, l2: Language :: LanguageCode(l1) == LanguageCode(l2) ==> l1 == l2
  {
    forall l1: Language, l2: Language | LanguageCode(l1) == LanguageCode(l2) ensures l1 == l2 {
      assert LanguageCode(l1)[0] == LanguageCode(l2)[0] && LanguageCode(l1)[1] == LanguageCode(l2)[1];
    }
  }

  /** `text.slice(0, 4000)`: the text that is sent. */
  function SpeechText(text: string): (r: string)
    ensures |r| <= MAX_SPEECH_CHARS
    ensures |r| <= |text| && r == text[..|r|]
    ensures |text| <= MAX_SPEECH_CHARS ==> r == text
    ensures |text| > MAX_SPEECH_CHARS ==> |r| == MAX_SPEECH_CHARS
  {
    if |text| <= MAX_SPEECH_CHARS then text else text[..MAX_SPEECH_CHARS]
  }

  /** Cutting is idempotent: a text already sent is sent again unchanged. */
  lemma SpeechTextIdempotent(text: string)
    ensures SpeechText(SpeechText(text)) == SpeechText(text)
  {
  }

  /** The JSON body of a text-to-speech request, with the voice in the URL. */
  datatype SpeechRequest = SpeechRequest(
    voiceId: string,
    text: string,
    modelId: string,
    stability: real,
    similarityBoost: real,
    languageCode: string)

  /** The request `generateSpeech` sends for `text` in `language`. */
  function Request(text: string, language: Language): (r: SpeechRequest)
    ensures r.text == SpeechText(text) && r.languageCode == LanguageCode(language)
    ensures r.voiceId == VOICE_ID && r.modelId == MODEL_ID
    ensures r.stability == 0.5 && r.similarityBoost == 0.75
  {
    SpeechRequest(VOICE_ID, SpeechText(text), MODEL_ID, 0.5, 0.75, LanguageCode(language))
  }

  /** What the service answered: the `ok` flag, the status code and the body. */
  datatype HttpResponse = HttpResponse(ok: bool, status: nat, body: seq<bv8>)

  /** What `generateSpeech` resolves with. */
  datatype SpeechAudio = SpeechAudio(blobUrl: string, blob: seq<bv8>)

  const API_ERROR_PREFIX: string := "ElevenLabs API error: "

  /** What `generateSpeech` makes of the service's response: a non-ok response
      becomes an error naming its status, otherwise the body becomes a blob with
      the object URL created for it. */
  function SpeechResult(response: HttpResponse, blobUrl: string): (r: Result<SpeechAudio, string>)
    ensures r.Err? <==> !response.ok
    ensures r.Err? ==> |r.error| > |API_ERROR_PREFIX| && r.error[..|API_ERROR_PREFIX|] == API_ERROR_PREFIX
                       && r.error[|API_ERROR_PREFIX|..] == DecimalString(response.status)
    ensures r.Ok? ==> r.value == SpeechAudio(blobUrl, response.body)
  {
    if !response.ok then
      var e := API_ERROR_PREFIX + DecimalString(response.status);
      assert e[..|API_ERROR_PREFIX|] == API_ERROR_PREFIX;
      Err(e)
    else
      Ok(SpeechAudio(blobUrl, response.body))
  }

  /** Two failed responses give the same error only when their statuses agree. */
  lemma SpeechErrorNamesStatus(r1: HttpResponse, r2: HttpResponse, u1: string, u2: string)
    requires !r1.ok && !r2.ok
    ensures SpeechResult(r1, u1) == SpeechResult(r2, u2) <==> r1.status == r2.status
  {
    var e1, e2 := SpeechResult(r1, u1).error, SpeechResult(r2, u2).error;
    if e1 == e2 {
      assert e1[|API_ERROR_PREFIX|..] == e2[|API_ERROR_PREFIX|..];
      DecimalStringInjective(r1.status, r2.status);
    }
  }

  /** `generateSpeech`: send the request for `text` (cut to the character cap) in
      `language`'s voice settings; a non-ok response fails naming its status,
      an ok one gives its body as audio with the object URL made for it. */
  function GenerateSpeech(text: string, language: Language, send: SpeechRequest -> HttpResponse,
                          objectUrl: seq<bv8> -> string): (r: Result<SpeechAudio, string>)
    ensures var response := send(Request(text, language));
            && (r.Err? <==> !response.ok)
            && (r.Err? ==> r.error == API_ERROR_PREFIX + DecimalString(response.status))
            && (r.Ok? ==> r.value == SpeechAudio(objectUrl(response.body), response.body))
  {
    var response := send(Request(text, language));
    SpeechResult(response, objectUrl(response.body))
  }
}
