/** The inference-service client: decoding a captured image's data URL, choosing
    the grade-level and explanation instructions of the prompt, taking the JSON
    object out of the model's reply, and the follow-up question that returns the
    reply as it is. The service call itself and `JSON.parse` are parameters. */
module Gemini {
  import opened Js
  import opened Types

  // ---------------------------------------------------------------------------
  // Data URL decoding (dataURLtoBase64)

  /** What `dataURLtoBase64` returns. `base64` is undefined when the URL has no comma. */
  datatype DataUrlParts = DataUrlParts(base64: Option<string>, mimeType: string)

  /** The MIME type used when the header has no `:...;` part. */
  const DEFAULT_MIME_TYPE: string := "image/jpeg"

  /** `/:(.*?);/` matches at index `a` with capture `m`: a `:` at `a`, then `m`
      (no `;` and, since `.` does not match them, no line terminator), then `;`. */
  ghost predicate MimeMatchAt(h: string, a: int, m: string) {
    && 0 <= a && a + |m| + 1 < |h|
    && h[a] == ':' && h[a + 1..a + 1 + |m|] == m && h[a + 1 + |m|] == ';'
    && forall k :: 0 <= k < |m| ==> m[k] != ';' && !IsLineTerminator(m[k])
  }

  /** The first index from `j` on that holds `;` or a line terminator, or `|h|`:
      where the lazy `.*?` of a match attempt stops. */
  function MimeStop(h: string, j: nat): (k: nat)
    requires j <= |h|
    ensures j <= k <= |h|
    ensures k < |h| ==> h[k] == ';' || IsLineTerminator(h[k])
    ensures forall n :: j <= n < k ==> h[n] != ';' && !IsLineTerminator(h[n])
    decreases |h| - j
  {
    if j == |h| || h[j] == ';' || IsLineTerminator(h[j]) then j else MimeStop(h, j + 1)
  }

  /** The capture of the first match of `/:(.*?);/` in `h` that starts at or after `i`. */
  function MatchMimeFrom(h: string, i: nat): (r: Option<string>)
    requires i <= |h|
    ensures r.Some? ==> exists a :: i <= a && MimeMatchAt(h, a, r.value)
    decreases |h| - i
  {
    if i == |h| then None
    else if h[i] == ':' then
      var k := MimeStop(h, i + 1);
      if k < |h| && h[k] == ';' then
        assert MimeMatchAt(h, i, h[i + 1..k]);
        Some(h[i + 1..k])
      else MatchMimeFrom(h, i + 1)
    else MatchMimeFrom(h, i + 1)
  }

  /** A match attempt at `a` stops exactly at the `;` that ends the capture. */
  lemma MimeMatchStop(h: string, a: int, m: string)
    requires MimeMatchAt(h, a, m)
    ensures MimeStop(h, a + 1) == a + 1 + |m|
  {
    assert forall j :: 0 <= j < |m| ==> h[a + 1 + j] == m[j];
  }

  /** Where no match starts at `i`, the search moves on to `i + 1`. */
  lemma MatchMimeSkip(h: string, i: nat)
    requires i < |h| && forall m :: !MimeMatchAt(h, i, m)
    ensures MatchMimeFrom(h, i) == MatchMimeFrom(h, i + 1)
  {
    if h[i] == ':' {
      var k := MimeStop(h, i + 1);
      if k < |h| && h[k] == ';' {
        var c := h[i + 1..k];
        assert forall j :: 0 <= j < |c| ==> c[j] == h[i + 1 + j];
        assert MimeMatchAt(h, i, c);
      }
    }
  }

  /** The search returns the capture of the leftmost match. */
  lemma {:induction false} MatchMimeLeftmost(h: string, i: nat, a: nat, m: string)
    requires i <= a && MimeMatchAt(h, a, m)
    requires forall b, m' :: i <= b < a ==> !MimeMatchAt(h, b, m')
    ensures MatchMimeFrom(h, i) == Some(m)
    decreases a - i
  {
    if i == a {
      MimeMatchStop(h, a, m);
      assert h[a + 1..a + 1 + |m|] == m;
    } else {
      MatchMimeSkip(h, i);
      MatchMimeLeftmost(h, i + 1, a, m);
    }
  }

  /** The search finds nothing exactly when there is no match. */
  lemma {:induction false} MatchMimeNone(h: string, i: nat)
    requires i <= |h|
    ensures MatchMimeFrom(h, i) == None <==> forall a, m :: i <= a ==> !MimeMatchAt(h, a, m)
    decreases |h| - i
  {
    if i < |h| {
      MatchMimeNone(h, i + 1);
      if h[i] == ':' {
        var k := MimeStop(h, i + 1);
        if k < |h| && h[k] == ';' {
          var c := h[i + 1..k];
          assert forall j :: 0 <= j < |c| ==> c[j] == h[i + 1 + j];
          assert MimeMatchAt(h, i, c);
        } else {
          forall m | MimeMatchAt(h, i, m) ensures false {
            MimeMatchStop(h, i, m);
          }
        }
      }
    }
  }

  /** `header.match(/:(.*?);/)?.[1] ?? 'image/jpeg'`. */
  function MimeType(header: string): (r: string)
    ensures r == DEFAULT_MIME_TYPE || exists a :: MimeMatchAt(header, a, r)
    ensures (forall a, m :: !MimeMatchAt(header, a, m)) ==> r == DEFAULT_MIME_TYPE
  {
    MatchMimeNone(header, 0);
    MatchMimeFrom(header, 0).GetOr(DEFAULT_MIME_TYPE)
  }

  /** A header `pre:m;post` with no `:` in `pre`, and neither `;` nor a line break
      in `m`, has MIME type `m`, whatever follows. */
  lemma MimeTypeOfHeader(pre: string, m: string, post: string)
    requires ':' !in pre
    requires forall k :: 0 <= k < |m| ==> m[k] != ';' && !IsLineTerminator(m[k])
    ensures MimeType(pre + ":" + m + ";" + post) == m
  {
    var h := pre + ":" + m + ";" + post;
    var a := |pre|;
    assert h[a + 1..a + 1 + |m|] == m;
    assert MimeMatchAt(h, a, m);
    forall b, m' | 0 <= b < a ensures !MimeMatchAt(h, b, m') {
      assert h[b] == pre[b];
    }
    MatchMimeLeftmost(h, 0, a, m);
  }

  /** A header with no `:` has the default MIME type. */
  lemma MimeTypeWithoutColon(h: string)
    requires ':' !in h
    ensures MimeType(h) == DEFAULT_MIME_TYPE
  {
    MatchMimeNone(h, 0);
  }

  /** `dataURLtoBase64`: the payload is the piece after the first comma, the MIME
      type comes from the header before it. */
  function DataUrlToBase64(dataUrl: string): (r: DataUrlParts)
    ensures r.base64.None? <==> ',' !in dataUrl
    ensures r.mimeType == MimeType(dataUrl[..IndexOf(dataUrl, ',')])
  {
    var parts := Split(dataUrl, ',');
    SplitFirst(dataUrl, ',');
    DataUrlParts(if |parts| > 1 then Some(parts[1]) else None, MimeType(parts[0]))
  }

  /** The payload is exactly the segment between the first and the second comma;
      whatever follows a second comma is dropped. */
  lemma PayloadBetweenCommas(header: string, payload: string, more: Option<string>)
    requires ',' !in header && ',' !in payload
    ensures var url := header + "," + payload + (if more.Some? then "," + more.value else "");
            DataUrlToBase64(url) == DataUrlParts(Some(payload), MimeType(header))
  {
    var tail := payload + (if more.Some? then "," + more.value else "");
    var url := header + "," + payload + (if more.Some? then "," + more.value else "");
    assert url == header + [','] + tail;
    SplitAfterFirst(header, ',', tail);
    PayloadFirst(payload, more);
  }

  lemma PayloadFirst(payload: string, more: Option<string>)
    requires ',' !in payload
    ensures Split(payload + (if more.Some? then "," + more.value else ""), ',')[0] == payload
  {
    if more.Some? {
      assert payload + (if more.Some? then "," + more.value else "") == payload + [','] + more.value;
      SplitAfterFirst(payload, ',', more.value);
    } else {
      assert payload + "" == payload;
      SplitWithoutSeparator(payload, ',');
    }
  }

  // ---------------------------------------------------------------------------
  // Prompt assembly

  const GRADE_LEAD: string := "The student is in "
  const GRADE_TAIL: string :=
    ". Adjust your language complexity, vocabulary, and explanation depth to be appropriate for this grade level."

  /** The grade-level sentence, empty when the grade level is absent or empty. */
  function GradeLevelInstruction(gradeLevel: Option<string>): (r: string)
    ensures r == "" <==> !Truthy(gradeLevel)
    ensures Truthy(gradeLevel) ==> OccursAt(r, gradeLevel.value, |GRADE_LEAD|)
  {
    if Truthy(gradeLevel) then
      var r := GRADE_LEAD + gradeLevel.value + GRADE_TAIL;
      assert r[|GRADE_LEAD|..|GRADE_LEAD| + |gradeLevel.value|] == gradeLevel.value;
      r
    else ""
  }

  /** The opening both explanation items share. */
  const EXPLANATION_LEAD: string := "**explanation**: Provide "
  const HINTS_LEAD: string := EXPLANATION_LEAD + "helpful HINTS in "
  const HINTS_TAIL: string :=
    " to guide the student toward solving this on their own. DO NOT give the complete solution. "
    + "Instead, ask guiding questions, suggest which concepts to review, or give the first step only. "
    + "Encourage critical thinking. For example, \"What operation would help you isolate x?\" "
    + "or \"Remember the order of operations: PEMDAS.\""
  const STEPS_LEAD: string :=
    EXPLANATION_LEAD + "a clear, " + "step-by-step explanation of how to solve or understand this homework in "
  const STEPS_TAIL: string :=
    ". Use simple language appropriate for a student. If it's math, show each step. "
    + "If it's a reading/history/science assignment, explain the key concepts."

  /** The explanation item of the prompt: guiding hints in hints mode, a full
      step-by-step explanation otherwise; both name the target language. */
  function ExplanationInstruction(hintsMode: bool, targetLanguage: Language): (r: string)
    ensures OccursAt(r, LanguageId(targetLanguage), if hintsMode then |HINTS_LEAD| else |STEPS_LEAD|)
    ensures hintsMode ==> r[..|HINTS_LEAD|] == HINTS_LEAD
    ensures !hintsMode ==> r[..|STEPS_LEAD|] == STEPS_LEAD
  {
    var lang := LanguageId(targetLanguage);
    var lead := if hintsMode then HINTS_LEAD else STEPS_LEAD;
    var r := lead + lang + (if hintsMode then HINTS_TAIL else STEPS_TAIL);
    assert r[|lead|..|lead| + |lang|] == lang;
    r
  }

  /** The two explanation styles never coincide, whatever the languages. */
  lemma ExplanationModesDiffer(l1: Language, l2: Language)
    ensures ExplanationInstruction(true, l1) != ExplanationInstruction(false, l2)
  {
    ExplanationStyleMark(true, l1);
    ExplanationStyleMark(false, l2);
  }

  /** The character after the shared opening tells the two styles apart. */
  lemma ExplanationStyleMark(hintsMode: bool, l: Language)
    ensures |ExplanationInstruction(hintsMode, l)| > |EXPLANATION_LEAD|
    ensures ExplanationInstruction(hintsMode, l)[|EXPLANATION_LEAD|] == if hintsMode then 'h' else 'a'
  {
    var r := ExplanationInstruction(hintsMode, l);
    var lead := if hintsMode then HINTS_LEAD else STEPS_LEAD;
    var n := |EXPLANATION_LEAD|;
    assert r[..|lead|] == lead;
    assert lead[n] == if hintsMode then 'h' else 'a';
    assert r[n] == r[..|lead|][n];
  }

  /** The variable parts of the three prompts; their fixed wording is not modelled. */
  datatype Prompt =
    | ImagePrompt(gradeLevelInstruction: string, explanationInstruction: string, targetLanguage: string)
    | TextPrompt(gradeLevelInstruction: string, explanationInstruction: string, targetLanguage: string,
                 homeworkText: string)
    | FollowUpPrompt(context: string, question: string, targetLanguage: string)

  /** The image part of an image request. */
  datatype InlineData = InlineData(data: Option<string>, mimeType: string)

  /** What is sent to the inference service. */
  datatype InferenceRequest =
    | TextRequest(prompt: Prompt)
    | ImageRequest(prompt: Prompt, image: InlineData)

  /** The request `analyzeHomework` sends. */
  function HomeworkRequest(imageDataUrl: string, targetLanguage: Language, gradeLevel: Option<string>,
                           hintsMode: bool): (r: InferenceRequest)
    ensures r.ImageRequest? && r.prompt.ImagePrompt?
    ensures r.image.data.None? <==> ',' !in imageDataUrl
    ensures r.image.mimeType == MimeType(imageDataUrl[..IndexOf(imageDataUrl, ',')])
    ensures ParseLanguageId(r.prompt.targetLanguage) == Some(targetLanguage)
    ensures r.prompt.gradeLevelInstruction == GradeLevelInstruction(gradeLevel)
    ensures r.prompt.explanationInstruction == ExplanationInstruction(hintsMode, targetLanguage)
  {
    LanguagesClosed();
    var parts := DataUrlToBase64(imageDataUrl);
    ImageRequest(
      ImagePrompt(GradeLevelInstruction(gradeLevel), ExplanationInstruction(hintsMode, targetLanguage),
                  LanguageId(targetLanguage)),
      InlineData(parts.base64, parts.mimeType))
  }

  /** The request `analyzeText` sends. */
  function TextAnalysisRequest(homeworkText: string, targetLanguage: Language, gradeLevel: Option<string>,
                               hintsMode: bool): (r: InferenceRequest)
    ensures r.TextRequest? && r.prompt.TextPrompt? && r.prompt.homeworkText == homeworkText
    ensures ParseLanguageId(r.prompt.targetLanguage) == Some(targetLanguage)
    ensures r.prompt.gradeLevelInstruction == GradeLevelInstruction(gradeLevel)
    ensures r.prompt.explanationInstruction == ExplanationInstruction(hintsMode, targetLanguage)
  {
    LanguagesClosed();
    TextRequest(
      TextPrompt(GradeLevelInstruction(gradeLevel), ExplanationInstruction(hintsMode, targetLanguage),
                 LanguageId(targetLanguage), homeworkText))
  }

  // ---------------------------------------------------------------------------
  // Reply handling

  /** Why an analysis failed: the service call rejected, the reply held no
      `{...}` span (the page is told `message`), or `JSON.parse` rejected the span. */
  datatype AnalysisError = InferenceFailed | NoJsonObject(message: string) | InvalidJson

  /** The message thrown when the reply holds no `{...}` span. */
  const NO_JSON_MESSAGE: string := "Failed to parse Gemini response"

  /** Some `{` comes before some `}` in `t`: `/\{[\s\S]*\}/` can match. */
  ghost predicate HasBracePair(t: string) {
    exists i, j :: 0 <= i < j < |t| && t[i] == '{' && t[j] == '}'
  }

  /** `t[a..b + 1]` is the greedy match: from the first `{` to the last `}`. */
  ghost predicate JsonSpanAt(t: string, a: int, b: int) {
    && 0 <= a < b < |t| && t[a] == '{' && t[b] == '}'
    && (forall k :: 0 <= k < a ==> t[k] != '{')
    && (forall k :: b < k < |t| ==> t[k] != '}')
  }

  /** `text.match(/\{[\s\S]*\}/)`: the greedy span, or the "Failed to parse
      Gemini response" failure when there is none. */
  function ExtractJsonSpan(text: string): (r: Result<string, AnalysisError>)
    ensures r.Err? <==> !HasBracePair(text)
    ensures r.Err? ==> r.error == NoJsonObject(NO_JSON_MESSAGE)
    ensures r.Ok? ==> forall a, b :: JsonSpanAt(text, a, b) ==> r.value == text[a..b + 1]
    ensures r.Ok? ==> exists a, b :: JsonSpanAt(text, a, b) && r.value == text[a..b + 1]
  {
    var a := IndexOf(text, '{');
    var b := LastIndexOf(text, '}');
    if a < b then
      assert JsonSpanAt(text, a, b);
      Ok(text[a..b + 1])
    else
      Err(NoJsonObject(NO_JSON_MESSAGE))
  }

  /** There is at most one greedy span, so the extracted text is determined. */
  lemma JsonSpanUnique(t: string, a: int, b: int, a': int, b': int)
    requires JsonSpanAt(t, a, b) && JsonSpanAt(t, a', b')
    ensures a == a' && b == b'
  {
  }

  /** Extracting from an extracted span gives the span back. */
  lemma ExtractIdempotent(text: string)
    requires ExtractJsonSpan(text).Ok?
    ensures ExtractJsonSpan(ExtractJsonSpan(text).value) == ExtractJsonSpan(text)
  {
    var a, b := IndexOf(text, '{'), LastIndexOf(text, '}');
    var s := text[a..b + 1];
    assert ExtractJsonSpan(text).value == s;
    assert s[0] == '{' && s[|s| - 1] == '}';
    assert IndexOf(s, '{') == 0;
    assert LastIndexOf(s, '}') == |s| - 1;
    assert s[0..|s|] == s;
  }

  /** The outcome `r` of handling `reply`: a rejected call fails as such; a reply
      with no `{...}` span fails with the "Failed to parse" message; otherwise
      `parse` decides on the greedy span: the analysis it returns, or the JSON
      error when it rejects the span. */
  ghost predicate HandlesReply(reply: Result<string, ()>, parse: string -> Option<GeminiAnalysis>,
                               r: Result<GeminiAnalysis, AnalysisError>) {
    && (reply.Err? ==> r == Err(InferenceFailed))
    && (reply.Ok? && !HasBracePair(reply.value) ==> r == Err(NoJsonObject(NO_JSON_MESSAGE)))
    && (reply.Ok? ==> forall a, b :: JsonSpanAt(reply.value, a, b) ==>
          && (r.Ok? <==> parse(reply.value[a..b + 1]).Some?)
          && (r.Ok? ==> parse(reply.value[a..b + 1]) == Some(r.value))
          && (r.Err? ==> r == Err(InvalidJson)))
  }

  /** What happens to the service's reply: extract the span, then parse it. */
  function ParseReply(reply: Result<string, ()>, parse: string -> Option<GeminiAnalysis>)
    : (r: Result<GeminiAnalysis, AnalysisError>)
    ensures HandlesReply(reply, parse, r)
  {
    match reply
    case Err(_) => Err(InferenceFailed)
    case Ok(text) =>
      match ExtractJsonSpan(text)
      case Err(e) => Err(e)
      case Ok(span) =>
        match parse(span)
        case None => Err(InvalidJson)
        case Some(analysis) => Ok(analysis)
  }

  /** A reply with a `{` before a `}` has its greedy span, so `parse` decides. */
  lemma BracePairSpan(t: string)
    requires HasBracePair(t)
    ensures JsonSpanAt(t, IndexOf(t, '{'), LastIndexOf(t, '}'))
  {
  }

  /** `analyzeHomework`: send the image with its prompt, then handle the reply. */
  function AnalyzeHomework(imageDataUrl: string, targetLanguage: Language, gradeLevel: Option<string>,
                           generate: InferenceRequest -> Result<string, ()>,
                           parse: string -> Option<GeminiAnalysis>,
                           hintsMode: bool := false): (r: Result<GeminiAnalysis, AnalysisError>)
    ensures HandlesReply(generate(HomeworkRequest(imageDataUrl, targetLanguage, gradeLevel, hintsMode)), parse, r)
  {
    ParseReply(generate(HomeworkRequest(imageDataUrl, targetLanguage, gradeLevel, hintsMode)), parse)
  }

  /** `analyzeText`: send the typed homework with its prompt, then handle the reply. */
  function AnalyzeText(homeworkText: string, targetLanguage: Language, gradeLevel: Option<string>,
                       generate: InferenceRequest -> Result<string, ()>,
                       parse: string -> Option<GeminiAnalysis>,
                       hintsMode: bool := false): (r: Result<GeminiAnalysis, AnalysisError>)
    ensures HandlesReply(generate(TextAnalysisRequest(homeworkText, targetLanguage, gradeLevel, hintsMode)), parse, r)
  {
    ParseReply(generate(TextAnalysisRequest(homeworkText, targetLanguage, gradeLevel, hintsMode)), parse)
  }

  /** `askFollowUp`: the reply text is returned as it is, with no span extraction. */
  function AskFollowUp(question: string, context: string, targetLanguage: Language,
                       generate: InferenceRequest -> Result<string, ()>): (r: Result<string, ()>)
    ensures var reply := generate(TextRequest(FollowUpPrompt(context, question, LanguageId(targetLanguage))));
            r.Ok? <==> reply.Ok? && (r.Ok? ==> r.value == reply.value)
  {
    generate(TextRequest(FollowUpPrompt(context, question, LanguageId(targetLanguage))))
  }
}
