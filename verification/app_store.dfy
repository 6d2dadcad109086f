/** The session store shared by the pages: the captured image or typed text
    waiting to be analysed, the result being shown, the follow-up conversation,
    and three activity flags. Every setter replaces one field; `reset` puts all
    seven back. */
module AppStore {
  import opened Js
  import opened Types

  /** The seven data fields of the store, as one value. */
  datatype AppState = AppState(
    capturedImage: Option<string>,
    typedText: Option<string>,
    currentResult: Option<HomeworkResult>,
    conversation: seq<ConversationMessage>,
    isAnalyzing: bool,
    isGeneratingAudio: bool,
    isListening: bool)

  /** The state the store is created with and `reset` returns to. */
  const INITIAL: AppState := AppState(None, None, None, [], false, false, false)

  /** No input, no result, no conversation and no activity. */
  predicate IsIdle(s: AppState) {
    && s.capturedImage.None? && s.typedText.None? && s.currentResult.None?
    && s.conversation == [] && !s.isAnalyzing && !s.isGeneratingAudio && !s.isListening
  }

  /** The initial state is the one idle state. */
  lemma InitialIsIdle(s: AppState)
    ensures IsIdle(INITIAL)
    ensures IsIdle(s) ==> s == INITIAL
  {
  }

  /** The state after `addMessage(m)`. */
  function WithMessage(s: AppState, m: ConversationMessage): (r: AppState)
    ensures |r.conversation| == |s.conversation| + 1
    ensures r.conversation[..|s.conversation|] == s.conversation
    ensures r.conversation[|s.conversation|] == m
    ensures r.(conversation := s.conversation) == s
  {
    s.(conversation := s.conversation + [m])
  }

  /** The state after `addMessage` for each of `ms` in turn. */
  function AddAll(s: AppState, ms: seq<ConversationMessage>): AppState
    decreases |ms|
  {
    if ms == [] then s else AddAll(WithMessage(s, ms[0]), ms[1..])
  }

  /** Adding messages one by one keeps them in the order they were added. */
  lemma {:induction false} WithMessagesInOrder(s: AppState, ms: seq<ConversationMessage>)
    ensures AddAll(s, ms).conversation == s.conversation + ms
    ensures AddAll(s, ms).(conversation := s.conversation) == s
    decreases |ms|
  {
    if ms != [] {
      var s' := WithMessage(s, ms[0]);
      WithMessagesInOrder(s', ms[1..]);
      assert s.conversation + ms == s.conversation + [ms[0]] + ms[1..];
    }
  }

  /** `useAppStore`. */
  class Store {
    var capturedImage: Option<string>
    var typedText: Option<string>
    var currentResult: Option<HomeworkResult>
    var conversation: seq<ConversationMessage>
    var isAnalyzing: bool
    var isGeneratingAudio: bool
    var isListening: bool

    /** The store's fields as one value. */
    function State(): AppState
      reads this
    {
      AppState(capturedImage, typedText, currentResult, conversation, isAnalyzing, isGeneratingAudio, isListening)
    }

    constructor()
      ensures State() == INITIAL
    {
      capturedImage, typedText, currentResult := None, None, None;
      conversation := [];
      isAnalyzing, isGeneratingAudio, isListening := false, false, false;
    }

    method SetCapturedImage(image: Option<string>)
      modifies this
      ensures State() == old(State()).(capturedImage := image)
    {
      capturedImage := image;
    }

    method SetTypedText(text: Option<string>)
      modifies this
      ensures State() == old(State()).(typedText := text)
    {
      typedText := text;
    }

    method SetCurrentResult(result: Option<HomeworkResult>)
      modifies this
      ensures State() == old(State()).(currentResult := result)
    {
      currentResult := result;
    }

    /** Appends `message` at the end of the conversation. */
    method AddMessage(message: ConversationMessage)
      modifies this
      ensures State() == WithMessage(old(State()), message)
    {
      conversation := conversation + [message];
    }

    method ClearConversation()
      modifies this
      ensures State() == old(State()).(conversation := [])
    {
      conversation := [];
    }

    method SetIsAnalyzing(val: bool)
      modifies this
      ensures State() == old(State()).(isAnalyzing := val)
    {
      isAnalyzing := val;
    }

    method SetIsGeneratingAudio(val: bool)
      modifies this
      ensures State() == old(State()).(isGeneratingAudio := val)
    {
      isGeneratingAudio := val;
    }

    method SetIsListening(val: bool)
      modifies this
      ensures State() == old(State()).(isListening := val)
    {
      isListening := val;
    }

    /** Puts all seven fields back to their initial values, from any state. */
    method Reset()
      modifies this
      ensures State() == INITIAL
    {
      capturedImage, typedText, currentResult := None, None, None;
      conversation := [];
      isAnalyzing, isGeneratingAudio, isListening := false, false, false;
    }
  }
}
