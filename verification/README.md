# Clarify homework helper: a Dafny model of its core

Clarify lets a student photograph or type a homework problem. It asks an
inference service (Gemini) to transcribe, translate and explain it in the
student's language, speaks the explanation (ElevenLabs), saves the result, and
answers follow-up questions. This project models the parts of the front end
that decide what happens: the inference client's request building and reply
handling, the text-to-speech client, the two stores, the home page's
submission guards, the result page's analysis, persistence and follow-up
chain, the `.env` reader of the demo-audio script, and the shared types.

Modules, one per source file (plus two helper modules):

- `Js`: JavaScript values and the string built-ins the code uses. This covers
  truthiness, `indexOf`, `lastIndexOf`, `split` with one-character separators
  (with `Join` as its inverse) and `trim`.
- `Ui`: the visible effects of a handler (an error toast, a navigation).
- `Types`: `types/index.ts`.
- `Gemini`: `services/gemini.ts`. The service call and `JSON.parse` are
  function parameters.
- `ElevenLabs`: `services/elevenlabs.ts`. `fetch` is reduced to its response,
  and `URL.createObjectURL` is a parameter.
- `AppStore`: `stores/appStore.ts`, as a class whose methods update its seven
  fields.
- `AuthStore`: `stores/authStore.ts`. `ensureUserProfile` is a pure function
  of what the profile document holds. The store is a class whose methods take
  the outcomes of the Firebase calls as parameters.
- `HomePage`: `pages/Home.tsx`, as a class for one rendering.
- `ResultPage`: `pages/Result.tsx`. Every awaited call is split at its
  `await`: one method makes the call, and a later method receives the outcome.
  - The environment may run pending continuations in any order, with other
    handlers in between.
  - A ghost trace `events` records every call made and every outcome received.
  - The invariant `Valid()` says the page's stage fields agree with the trace,
    and that the trace obeys the page's ordering rules (`WellOrdered`).
  - Each method keeps `Valid()`. Lemmas over well-ordered traces state the
    rules: one analysis per mount, at most one save outcome, no write that
    depends on the save before it returned an id, and nothing of that kind
    after a failed save.
- `DemoAudio`: the `.env` parsing `reduce` of `scripts/generate-demo-audio.ts`,
  as a loop over the lines that updates a map.

Two behaviours of the code are worth naming, since the model follows them as
written:

- Reply handling only takes the greedy `{...}` span of the reply and hands it
  to `JSON.parse`. Nothing else in the reply is cleaned
  (`Gemini.ExtractJsonSpan`).
- The audio upload waits for the save (`savePromise.then`), so the model
  uploads only after the save settled with a document id.

## Model

| member | source | states |
|---|---|---|
| Js.IndexOf | frontend/src/pages/Home.tsx:47 | the result is at most the length; when below it, that position holds the character and no earlier one does (the length itself stands for "not found") |
| Js.LastIndexOf | frontend/src/services/gemini.ts:56 | -1 or a position holding the character, with no later occurrence |
| Js.SplitPieces | frontend/src/services/gemini.ts:8 | no piece of `split` holds the separator; there is one piece exactly when the separator does not occur |
| Js.JoinSplit | frontend/scripts/generate-demo-audio.ts:7-8 | joining the pieces of a split with the separator gives the string back |
| Js.SplitJoin | frontend/scripts/generate-demo-audio.ts:7-8 | splitting pieces that hold no separator, glued with it, gives the pieces back |
| Js.SplitWithoutSeparator | frontend/scripts/generate-demo-audio.ts:8 | a string without the separator splits into itself alone |
| Js.SplitFirst | frontend/src/services/gemini.ts:8 | the first piece is the text before the first separator |
| Js.SplitAfterFirst | frontend/src/services/gemini.ts:8 | `a + sep + b`, with no separator in `a`, splits into `a` followed by the pieces of `b` |
| Js.TrimStartSpec | frontend/src/pages/Home.tsx:34-36 | the left-trimmed string is a suffix, starts with a non-whitespace character or is empty, and only whitespace was dropped |
| Js.TrimEndSpec | frontend/src/pages/Home.tsx:34-36 | the right-trimmed string is a prefix, ends with a non-whitespace character or is empty, and only whitespace was dropped |
| Js.TrimSpec | frontend/src/pages/Result.tsx:173-174 | `trim` gives a substring of its input that is empty exactly when the input is all whitespace, and otherwise starts and ends with a non-whitespace character |
| Js.TrimOfTrimmed | frontend/scripts/generate-demo-audio.ts:9 | a string with no whitespace at its ends trims to itself |
| Js.TrimIdempotent | frontend/src/pages/Home.tsx:36 | trimming twice is trimming once |
| Types.ParseLanguageId | frontend/src/types/index.ts:12-19 | a parsed literal is the literal of the language it names |
| Types.LanguagesClosed | frontend/src/types/index.ts:12-19 | there are exactly seven languages, each listed once, and each literal parses back to its language |
| Types.InfoWellFormed | frontend/src/types/index.ts:21-29 | every language has a table entry: its label is its literal capitalised, its native name is non-empty, and its flag is two regional indicators |
| Types.DecimalString | frontend/src/services/elevenlabs.ts:41 | a decimal rendering is non-empty and made of digits |
| Types.DecimalStringInjective | frontend/src/services/elevenlabs.ts:41 | different numbers have different decimal renderings |
| Types.GradeLevelsTable | frontend/src/types/index.ts:31-45 | the table has 13 entries: "1st Grade" to "12th Grade" in order, with their English ordinal suffixes, then "College" |
| Types.OneDigitGrades | frontend/src/types/index.ts:32-40 | entries 0 to 8 are grades 1 to 9 |
| Types.TwoDigitGrades | frontend/src/types/index.ts:41-43 | entries 9 to 11 are grades 10 to 12 |
| Gemini.MimeStop | frontend/src/services/gemini.ts:9 | the lazy `.*?` stops at the first `;` or line terminator from the given index, or at the end |
| Gemini.MatchMimeFrom | frontend/src/services/gemini.ts:9 | a found capture is the capture of a match of `/:(.*?);/` at or after the index |
| Gemini.MatchMimeLeftmost | frontend/src/services/gemini.ts:9 | the search returns the capture of the leftmost match |
| Gemini.MatchMimeNone | frontend/src/services/gemini.ts:9 | the search finds nothing exactly when no match exists |
| Gemini.MimeType | frontend/src/services/gemini.ts:9 | the MIME type is the capture of some match of `/:(.*?);/`, or `image/jpeg`; with no match it is `image/jpeg` |
| Gemini.MimeTypeOfHeader | frontend/src/services/gemini.ts:9 | a header `pre:m;post` with no `:` in `pre` and no `;` or line break in `m` has MIME type `m`, whatever follows |
| Gemini.MimeTypeWithoutColon | frontend/src/services/gemini.ts:9 | a header without `:` falls back to `image/jpeg` |
| Gemini.DataUrlToBase64 | frontend/src/services/gemini.ts:7-11 | the payload is undefined exactly when there is no comma; the MIME type comes from the text before the first comma |
| Gemini.PayloadBetweenCommas | frontend/src/services/gemini.ts:8 | the payload is the segment between the first and second comma; anything after a second comma is dropped |
| Gemini.GradeLevelInstruction | frontend/src/services/gemini.ts:21-23 | the grade sentence is empty exactly when the grade level is absent or empty; otherwise it embeds the grade level |
| Gemini.ExplanationInstruction | frontend/src/services/gemini.ts:25-27 | hints mode chooses the hints item and otherwise the step-by-step item; both embed the target language |
| Gemini.HomeworkRequest | frontend/src/services/gemini.ts:13-53 | an image request whose payload is absent exactly when the data URL has no comma, whose MIME type comes from the header, and whose prompt carries the grade sentence, the explanation item for the mode and the literal of the target language |
| Gemini.TextAnalysisRequest | frontend/src/services/gemini.ts:61-98 | a text request carrying the homework text unchanged, the grade sentence, the explanation item for the mode and the literal of the target language |
| Gemini.ExplanationModesDiffer | frontend/src/services/gemini.ts:71-73 | the hints item and the step-by-step item never coincide, whatever the languages |
| Gemini.ExtractJsonSpan | frontend/src/services/gemini.ts:55-58 | extraction fails, with "Failed to parse Gemini response", exactly when no `}` follows a `{`; on success it returns the span from the first `{` to the last `}`, and that is the only such span |
| Gemini.JsonSpanUnique | frontend/src/services/gemini.ts:56 | the greedy span is determined by the text |
| Gemini.ExtractIdempotent | frontend/src/services/gemini.ts:101 | extracting again from an extracted span gives the same span |
| Gemini.BracePairSpan | frontend/src/services/gemini.ts:56 | a reply holding a `{` before a `}` has the greedy span, from its first `{` to its last `}` |
| Gemini.ParseReply | frontend/src/services/gemini.ts:100-103 | a rejected call fails as such; a reply with no brace pair fails with "Failed to parse Gemini response"; otherwise the outcome is decided by `JSON.parse` on the greedy span: its analysis when it accepts the span, the JSON error when it rejects it |
| Gemini.AnalyzeHomework | frontend/src/services/gemini.ts:13-59 | the reply to the image request is handled as `ParseReply` states: rejected call, no brace pair, or `JSON.parse` on the greedy span deciding between the analysis and the JSON error |
| Gemini.AnalyzeText | frontend/src/services/gemini.ts:61-104 | the reply to the text request is handled as `ParseReply` states: rejected call, no brace pair, or `JSON.parse` on the greedy span deciding between the analysis and the JSON error |
| Gemini.AskFollowUp | frontend/src/services/gemini.ts:106-123 | the follow-up answer is the reply text unchanged, and fails exactly when the call fails |
| ElevenLabs.LanguageCodesDistinct | frontend/src/services/elevenlabs.ts:9-17 | every language has a two-letter lower-case code, and no two share one |
| ElevenLabs.SpeechText | frontend/src/services/elevenlabs.ts:30 | the text sent is a prefix of at most 4000 characters, and input of 4000 or fewer is sent unchanged |
| ElevenLabs.SpeechTextIdempotent | frontend/src/services/elevenlabs.ts:30 | cutting an already-cut text changes nothing |
| ElevenLabs.Request | frontend/src/services/elevenlabs.ts:23-38 | the request carries the cut text, the language's code, the fixed voice and model, and stability 0.5 and similarity 0.75 |
| ElevenLabs.SpeechResult | frontend/src/services/elevenlabs.ts:40-45 | a non-ok response is an error `ElevenLabs API error: <status>`; an ok one is the body as a blob with its object URL |
| ElevenLabs.SpeechErrorNamesStatus | frontend/src/services/elevenlabs.ts:41 | two failed responses give the same error exactly when their statuses agree |
| ElevenLabs.GenerateSpeech | frontend/src/services/elevenlabs.ts:19-46 | the response to the request for the text and language fails exactly when it is not ok, with `ElevenLabs API error: <status>`; an ok one gives its body as audio with the object URL made for it |
| AppStore.InitialIsIdle | frontend/src/stores/appStore.ts:24-30 | the initial state has no image, text or result, an empty conversation and all three flags false, and it is the only such state |
| AppStore.WithMessage | frontend/src/stores/appStore.ts:34-35 | `addMessage` grows the conversation by one, keeps earlier messages, puts the new one last, and changes no other field |
| AppStore.WithMessagesInOrder | frontend/src/stores/appStore.ts:34-35 | adding messages one by one appends them in the order they were added |
| AppStore.Store.constructor | frontend/src/stores/appStore.ts:23-30 | the store starts in the initial state |
| AppStore.Store.SetCapturedImage | frontend/src/stores/appStore.ts:31 | only `capturedImage` changes |
| AppStore.Store.SetTypedText | frontend/src/stores/appStore.ts:32 | only `typedText` changes |
| AppStore.Store.SetCurrentResult | frontend/src/stores/appStore.ts:33 | only `currentResult` changes |
| AppStore.Store.AddMessage | frontend/src/stores/appStore.ts:34-35 | the new state is the old one with the message appended |
| AppStore.Store.ClearConversation | frontend/src/stores/appStore.ts:36 | the conversation is emptied and nothing else changes |
| AppStore.Store.SetIsAnalyzing | frontend/src/stores/appStore.ts:37 | only `isAnalyzing` changes |
| AppStore.Store.SetIsGeneratingAudio | frontend/src/stores/appStore.ts:38 | only `isGeneratingAudio` changes |
| AppStore.Store.SetIsListening | frontend/src/stores/appStore.ts:39 | only `isListening` changes |
| AppStore.Store.Reset | frontend/src/stores/appStore.ts:40-49 | from any state, all seven fields return to their initial values |
| AuthStore.EnsureUserProfile | frontend/src/stores/authStore.ts:27-51 | a stored profile with a grade level is returned unchanged with no write; one without gets "College", merged into the document; a new profile copies the user's fields, has no language and the given grade level or "College", and is written whole |
| AuthStore.EnsureUserProfileSettles | frontend/src/stores/authStore.ts:27-51 | after its write, the document holds the profile returned, and the next sign-in returns it again with no write |
| AuthStore.SignInErrorsDistinct | frontend/src/stores/authStore.ts:59-93 | the three sign-in failures throw three different messages |
| AuthStore.EnsuredProfile | frontend/src/stores/authStore.ts:27-51 | the profile is produced exactly when the document read and any planned write succeeded, and is the planned profile |
| AuthStore.Store.constructor | frontend/src/stores/authStore.ts:53-57 | no user, no profile, not loading, not initialized |
| AuthStore.Store.BeginSignIn | frontend/src/stores/authStore.ts:60 | `loading` becomes true and nothing else changes |
| AuthStore.Store.FinishSignIn | frontend/src/stores/authStore.ts:59-93 | `loading` ends false; on success the user and the ensured profile are stored; on failure the kind's fixed message is returned and the user and profile are unchanged |
| AuthStore.Store.SignOut | frontend/src/stores/authStore.ts:95-98 | once Firebase signed out, the user and the profile are null |
| AuthStore.Store.UpdateLanguage | frontend/src/stores/authStore.ts:100-108 | no write without a user; otherwise the language is merged, and after a successful write only the profile's language changes, with a null profile staying null |
| AuthStore.Store.AuthStateChanged | frontend/src/stores/authStore.ts:111-118 | with no user the store is cleared, initialized and not loading; with a user it holds the user and the ensured profile |
| HomePage.Greeting | frontend/src/pages/Home.tsx:47 | "Hey" alone without a non-empty display name; otherwise "Hey, " and the display name up to its first space |
| HomePage.GreetingFirstWord | frontend/src/pages/Home.tsx:47 | the greeting's name holds no space, and is the whole display name exactly when that has none |
| HomePage.Page.constructor | frontend/src/pages/Home.tsx:10-15 | the page starts with the camera closed, an empty text box and no effects |
| HomePage.Page.TypeHomework | frontend/src/pages/Home.tsx:81 | only the text box changes, to what was typed |
| HomePage.Page.RequireLanguage | frontend/src/pages/Home.tsx:17-24 | answers whether a language is selected; without one it toasts and goes to `/profile` |
| HomePage.Page.HandleCapture | frontend/src/pages/Home.tsx:26-31 | with a language the image is stored, the camera closed and the page goes to `/result`; without one nothing is stored |
| HomePage.Page.HandleTextSubmit | frontend/src/pages/Home.tsx:33-38 | blank text is ignored before the language check; otherwise, with a language, the trimmed text is stored and the page goes to `/result`; without one nothing is stored |
| DemoAudio.EnvLineEntry | frontend/scripts/generate-demo-audio.ts:8-9 | a line contributes only when it holds `=` |
| DemoAudio.EnvLineEntryByIndex | frontend/scripts/generate-demo-audio.ts:8-9 | a line contributes exactly when its key piece and its value piece (up to a second `=`) are non-empty, and it contributes them trimmed |
| DemoAudio.ParseEnv | frontend/scripts/generate-demo-audio.ts:7-11 | the loop over the lines split at `\n` builds the dictionary the fold defines |
| DemoAudio.LastLineWins | frontend/scripts/generate-demo-audio.ts:9 | a key is defined exactly when some line contributes it, and holds the value of the last line that does |
| DemoAudio.EnvLineCarriageReturn | frontend/scripts/generate-demo-audio.ts:9 | for any key and any non-empty value without `=`, a trailing `\r` (a `\r\n` line ending) changes nothing: the line contributes what it would without it |
| DemoAudio.EnvLineSecondEquals | frontend/scripts/generate-demo-audio.ts:8 | for any key and value without `=`, whatever follows a second `=` is dropped: the line contributes what `key=value` would |
| DemoAudio.EnvLineBlankKey | frontend/scripts/generate-demo-audio.ts:9 | any non-empty key of white space only passes the check, which comes before trimming, and is stored as `""` with the trimmed value |
| DemoAudio.EnvLineNoValue | frontend/scripts/generate-demo-audio.ts:9 | any line `key=` or `key==...` (an empty value piece) contributes nothing |
| DemoAudio.EnvLineNoKey | frontend/scripts/generate-demo-audio.ts:9 | any line starting with `=` (an empty key piece) contributes nothing |
| DemoAudio.EnvLineComment | frontend/scripts/generate-demo-audio.ts:8-9 | any line without `=`, such as a comment or a blank line, contributes nothing |
| ResultPage.RecognitionLang | frontend/src/pages/Result.tsx:135-151 | `en-US` without a language; otherwise a five-character tag that starts with the language's code, then `-` and a two-letter upper-case region |
| ResultPage.AnalysisRequest | frontend/src/pages/Result.tsx:49-51 | the image is sent when there is one, with the payload and MIME type of its data URL, and the typed text otherwise; both requests carry the profile's language, its grade sentence and the step-by-step item |
| ResultPage.AnyIndex | frontend/src/pages/Result.tsx:34-121 | a step is in the trace exactly when some index holds it |
| ResultPage.Extend | frontend/src/pages/Result.tsx:34-121 | appending an allowed event keeps the trace well ordered |
| ResultPage.AllowedAt | frontend/src/pages/Result.tsx:34-121 | in a well-ordered trace each event is allowed by the events before it |
| ResultPage.AtMostOneAnalysis | frontend/src/pages/Result.tsx:40-41 | a well-ordered trace starts at most one analysis |
| ResultPage.AtMostOneSaveOutcome | frontend/src/pages/Result.tsx:74-87 | the save settles at most once |
| ResultPage.DurableWriteNeedsSave | frontend/src/pages/Result.tsx:74-106 | creating the conversation, uploading audio, attaching its URL and writing a message each come after the save returned a document id |
| ResultPage.FailedSaveStopsPersistence | frontend/src/pages/Result.tsx:84-87 | after a failed save no conversation, upload, audio URL or conversation message is ever written |
| ResultPage.AudioUrlNeedsSpeechAndUpload | frontend/src/pages/Result.tsx:93-103 | the audio URL is attached only to the saved homework, after the speech succeeded and the upload returned that URL |
| ResultPage.SavedRecordsHaveNoImage | frontend/src/pages/Result.tsx:73-74 | every saved record has an empty `imageUrl`, no `id` and no `audioUrl`, and is saved only after an analysis succeeded |
| ResultPage.MessageStep | frontend/src/pages/Result.tsx:179-187 | writing a message only to the conversation the page knows of keeps the page consistent with its trace |
| ResultPage.AskedStep | frontend/src/pages/Result.tsx:178-182 | asking a question keeps the page consistent with its trace |
| ResultPage.AnsweredStep | frontend/src/pages/Result.tsx:185-187 | an answer written to the conversation its handler saw keeps the page consistent |
| ResultPage.UploadStep | frontend/src/pages/Result.tsx:98-101 | the audio is uploaded only when the save gave an id, and either way the page stays consistent |
| ResultPage.UploadSettledStep | frontend/src/pages/Result.tsx:101-105 | the audio URL is attached only when the upload returned one |
| ResultPage.Page.constructor | frontend/src/pages/Result.tsx:13-32 | the page starts not started, with no audio, an empty box, no conversation id and an empty trace |
| ResultPage.Page.MountEffect | frontend/src/pages/Result.tsx:34-46 | without input, user or language it goes to `/home` and starts nothing; with a result shown or once started it does nothing; otherwise it starts the one analysis and sets `isAnalyzing` |
| ResultPage.Page.StartAnalysis | frontend/src/pages/Result.tsx:41-51 | the analysis request is recorded, the page is started and `isAnalyzing` is set |
| ResultPage.Page.AnalysisSettled | frontend/src/pages/Result.tsx:52-117 | on failure the page toasts, clears `isAnalyzing` and goes to `/home`; on success it does what `ShowAnalysis` does |
| ResultPage.Page.ShowAnalysis | frontend/src/pages/Result.tsx:54-74 | the result is shown, `isAnalyzing` cleared and both inputs cleared, then the record without its image is saved and the audio timer set |
| ResultPage.Page.SaveSettled | frontend/src/pages/Result.tsx:74-87 | with a document id the conversation is created for it; a rejection makes the save settle with null |
| ResultPage.Page.ConversationSettled | frontend/src/pages/Result.tsx:76-83 | on success the conversation id is kept and the document id attached to the store's current result, if any; either way the save settles with the document id |
| ResultPage.Page.AudioTimerFired | frontend/src/pages/Result.tsx:90-93 | `isGeneratingAudio` is set and speech for the explanation in the profile's language is requested |
| ResultPage.Page.SpeechSettled | frontend/src/pages/Result.tsx:93-110 | `isGeneratingAudio` ends false; an ok response shows the audio and waits for the save; a failed one toasts |
| ResultPage.Page.AudioSaveJoined | frontend/src/pages/Result.tsx:98-101 | a save with a document id leads to the upload; a null one ends the audio chain |
| ResultPage.Page.UploadSettled | frontend/src/pages/Result.tsx:101-105 | a download URL is attached to the homework; a failed upload only ends the chain |
| ResultPage.Page.TypeFollowUp | frontend/src/pages/Result.tsx:152-156 | only the follow-up box changes |
| ResultPage.Page.SubmitFollowUp | frontend/src/pages/Result.tsx:172-184 | blank text, no result or no language does nothing; otherwise the trimmed question is added to the conversation, written when there is a conversation id, and asked, with the box and the follow-up audio cleared and `isAnswering` set |
| ResultPage.Page.Ask | frontend/src/pages/Result.tsx:174-184 | the question is appended to the conversation, written only to a known conversation, and asked with the result's explanation as context |
| ResultPage.Page.FollowUpAnswered | frontend/src/pages/Result.tsx:184-195 | an answer is appended after the question, written to the conversation the handler saw, and spoken; a failed question toasts and ends with `isAnswering` false |
| ResultPage.Page.FollowUpSpoken | frontend/src/pages/Result.tsx:189-196 | the answer's audio is shown when its speech succeeded, and the follow-up ends with `isAnswering` false |
| ResultPage.Page.Leave | frontend/src/pages/Result.tsx:222 | the store is reset and the page goes to `/home` |

## Left out

- Network, storage and authentication I/O: the Gemini SDK call, `fetch` to
  the speech service, Firebase Auth, and every call into
  `services/firestore.ts`. Their outcomes are parameters (`Result` values), or
  events in the result page's trace. `services/firestore.ts` is not part of
  this model. The `Conversation` record of `types/index.ts` is used only there,
  so it has no counterpart in `Types`.
- `JSON.parse`: an abstract partial function parameter. Only the greedy span
  it is given is modelled.
- Gemini.ParseReply, Gemini.AnalyzeHomework, Gemini.AnalyzeText: the source's
  `as GeminiAnalysis` is an unchecked cast, so any value `JSON.parse` accepts
  is returned, even one missing fields or holding non-strings. The model's
  `parse` yields only complete five-field analyses, so such a reply is either
  an analysis or `InvalidJson` here.
- DemoAudio.EnvVarsOf, DemoAudio.LastLineWins: the accumulator is a plain
  object, on which a `__proto__` key sets the prototype instead of storing an
  entry. The model's map stores that key like any other.
- Timestamps (`Date.now()`), object URLs and blobs: parameters.
- Concurrency: the zero-delay timer and the promise chains of the result page
  are continuations that the environment calls in any order. JavaScript's
  single thread means each continuation runs to completion, which the method
  boundaries capture.
- JavaScript strings are UTF-16 code units; the model's strings are code
  points. Lengths (the 4000-character cut) and the flag emoji, two surrogate
  pairs each in the source, differ for text outside the basic plane.
- The prompt texts are not modelled word for word. Only their variable parts
  are: the grade sentence, the explanation item, the target language, the
  homework text, the follow-up context and question.
- Rendering and browser APIs: the JSX, scrolling, the audio player, the camera
  modal, the other pages, and speech recognition beyond its language tag. The
  recognizer's result only sets the follow-up text, as `TypeFollowUp` does.
- The demo-audio script's file reading, its speech request and its file
  writing. Only the `.env` parsing `reduce` is modelled.
- ResultPage.AnalysisRequest: the page reads `hintsMode` from the app store,
  which has no such field. The value is therefore always undefined, so the
  default `false` applies, and the model passes `false`.
- ResultPage.Page: the user and profile are those of the first rendering. The
  mount effect runs once (empty dependency list) and its closure keeps them, so
  a later language change does not reach the chain.
- ResultPage.Page.ConversationSettled: the document id goes to whatever result
  the store holds when the conversation returns, which after `Leave` and a new
  analysis may be a different homework. This is modelled as written. Nothing
  in the modelled code reads that `id`.
- ResultPage.Page.MountEffect, ResultPage.Page.StartAnalysis and the other
  page methods state the page's and the store's new state and the events they
  record. Their ordering guarantees are stated on the trace by the lemmas
  above, not in each method's contract.
- AuthStore.Store.FinishSignIn: the popup, the password check and the profile
  read are one outcome each. Firebase's error kinds are not distinguished,
  because the code maps every failure to the kind's fixed message.
