/** The home page: the greeting, and the two ways of submitting homework (a
    camera capture or typed text), both guarded by the profile having a
    language. */
module HomePage {
  import opened Js
  import opened Types
  import opened Ui
  import AppStore

  const SELECT_LANGUAGE_MESSAGE: string := "Select a language in your Profile first"

  /** The heading: `Hey`, followed by `, ` and the first space-separated word of
      the display name when there is a non-empty one. */
  function Greeting(displayName: Option<string>): (r: string)
    ensures !Truthy(displayName) ==> r == "Hey"
    ensures Truthy(displayName) ==>
              var name := displayName.value;
              r == "Hey, " + name[..IndexOf(name, ' ')]
  {
    if Truthy(displayName) then
      SplitFirst(displayName.value, ' ');
      "Hey, " + Split(displayName.value, ' ')[0]
    else "Hey"
  }

  /** The greeting's name never holds a space, and is the whole display name
      exactly when that has no space. */
  lemma GreetingFirstWord(displayName: string)
    requires displayName != ""
    ensures var g := Greeting(Some(displayName));
            var first := g[|"Hey, "|..];
            && ' ' !in first
            && (first == displayName <==> ' ' !in displayName)
  {
    var g := Greeting(Some(displayName));
    var i := IndexOf(displayName, ' ');
    assert g[|"Hey, "|..] == displayName[..i];
    if ' ' in displayName {
      assert |displayName[..i]| < |displayName|;
    }
  }

  /** The state of one rendering of the home page. */
  class Page {
    const store: AppStore.Store
    /** The signed-in user's profile as this rendering sees it. */
    const profile: Option<UserProfile>
    var showCamera: bool
    var homeworkText: string
    /** The toasts and navigations so far, oldest first. */
    var effects: seq<Effect>

    constructor(store: AppStore.Store, profile: Option<UserProfile>)
      ensures this.store == store && this.profile == profile
      ensures !showCamera && homeworkText == "" && effects == []
    {
      this.store, this.profile := store, profile;
      showCamera, homeworkText, effects := false, "", [];
    }

    /** The profile has a language selected. */
    predicate HasLanguage()
      reads this
    {
      profile.Some? && profile.value.selectedLanguage.Some?
    }

    /** Typing into the text box. */
    method TypeHomework(text: string)
      modifies this
      ensures homeworkText == text && showCamera == old(showCamera) && effects == old(effects)
    {
      homeworkText := text;
    }

    /** `requireLanguage`: without a selected language, shows the error toast,
        sends the user to `/profile` and answers false. */
    method RequireLanguage() returns (ok: bool)
      modifies this
      ensures ok <==> HasLanguage()
      ensures effects == old(effects) + if ok then [] else [ToastError(SELECT_LANGUAGE_MESSAGE), Navigate("/profile")]
      ensures showCamera == old(showCamera) && homeworkText == old(homeworkText)
    {
      ok := HasLanguage();
      if !ok {
        effects := effects + [ToastError(SELECT_LANGUAGE_MESSAGE), Navigate("/profile")];
      }
    }

    /** `handleCapture`: with a language, stores the image, closes the camera and
        goes to `/result`; without one, stores nothing. */
    method HandleCapture(imageDataUrl: string)
      modifies this, store
      ensures HasLanguage() ==>
                && store.State() == old(store.State()).(capturedImage := Some(imageDataUrl))
                && !showCamera && effects == old(effects) + [Navigate("/result")]
      ensures !HasLanguage() ==>
                && store.State() == old(store.State()) && showCamera == old(showCamera)
                && effects == old(effects) + [ToastError(SELECT_LANGUAGE_MESSAGE), Navigate("/profile")]
      ensures homeworkText == old(homeworkText)
    {
      var ok := RequireLanguage();
      if ok {
        store.SetCapturedImage(Some(imageDataUrl));
        showCamera := false;
        effects := effects + [Navigate("/result")];
      }
    }

    /** `handleTextSubmit`: blank text is ignored before the language is looked
        at; otherwise, with a language, the trimmed text is stored and the page
        goes to `/result`. */
    method HandleTextSubmit()
      modifies this, store
      ensures Trim(old(homeworkText)) == "" ==> store.State() == old(store.State()) && effects == old(effects)
      ensures Trim(old(homeworkText)) != "" && !HasLanguage() ==>
                && store.State() == old(store.State())
                && effects == old(effects) + [ToastError(SELECT_LANGUAGE_MESSAGE), Navigate("/profile")]
      ensures Trim(old(homeworkText)) != "" && HasLanguage() ==>
                && store.State() == old(store.State()).(typedText := Some(Trim(old(homeworkText))))
                && effects == old(effects) + [Navigate("/result")]
      ensures homeworkText == old(homeworkText) && showCamera == old(showCamera)
    {
      if Trim(homeworkText) == "" {
        return;
      }
      var ok := RequireLanguage();
      if ok {
        store.SetTypedText(Some(Trim(homeworkText)));
        effects := effects + [Navigate("/result")];
      }
    }
  }
}
