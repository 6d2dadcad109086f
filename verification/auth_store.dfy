/** The authentication store: the signed-in user, their profile, and the
    `loading` and `initialized` flags; profile defaulting on first sign-in;
    and the language update. Firebase Auth and the profile document reads and
    writes are outcomes given as parameters. */
module AuthStore {
  import opened Js
  import opened Types

  /** The fields of a Firebase user that the store copies into a profile. */
  datatype User = User(uid: string, email: Option<string>, displayName: Option<string>, photoURL: Option<string>)

  /** A write to the `users/{uid}` document. */
  datatype ProfileWrite =
    | MergeGradeLevel(uid: string, gradeLevel: string)
    | CreateProfile(profile: UserProfile)
    | MergeLanguage(uid: string, language: Language)

  /** What `ensureUserProfile` settles on: the profile it returns and the write it makes first, if any. */
  datatype ProfilePlan = ProfilePlan(profile: UserProfile, write: Option<ProfileWrite>)

  /** `ensureUserProfile` given what `users/{uid}` holds (`stored`) and the time.
      An existing profile is returned as is, except that a missing or empty grade
      level becomes `College` and is merged into the document; otherwise a new
      profile is built from the user and written whole. */
  function EnsureUserProfile(user: User, stored: Option<UserProfile>, age: Option<int>,
                             gradeLevel: Option<string>, now: int): (r: ProfilePlan)
    ensures Truthy(r.profile.gradeLevel)
    ensures stored.Some? && Truthy(stored.value.gradeLevel) ==> r == ProfilePlan(stored.value, None)
    ensures stored.Some? && !Truthy(stored.value.gradeLevel) ==>
              && r.profile == stored.value.(gradeLevel := Some(DEFAULT_GRADE_LEVEL))
              && r.write == Some(MergeGradeLevel(user.uid, DEFAULT_GRADE_LEVEL))
    ensures stored.None? ==>
              && r.profile.uid == user.uid && r.profile.email == user.email
              && r.profile.displayName == user.displayName && r.profile.photoURL == user.photoURL
              && r.profile.selectedLanguage.None? && r.profile.age == age && r.profile.createdAt == now
              && r.profile.gradeLevel == (if Truthy(gradeLevel) then gradeLevel else Some(DEFAULT_GRADE_LEVEL))
              && r.write == Some(CreateProfile(r.profile))
  {
    match stored
    case Some(data) =>
      if !Truthy(data.gradeLevel) then
        ProfilePlan(data.(gradeLevel := Some(DEFAULT_GRADE_LEVEL)), Some(MergeGradeLevel(user.uid, DEFAULT_GRADE_LEVEL)))
      else ProfilePlan(data, None)
    case None =>
      var profile := UserProfile(user.uid, user.email, user.displayName, user.photoURL, None, age,
                                 if Truthy(gradeLevel) then gradeLevel else Some(DEFAULT_GRADE_LEVEL), now);
      ProfilePlan(profile, Some(CreateProfile(profile)))
  }

  /** The document as it is after the planned write. */
  function AfterWrite(stored: Option<UserProfile>, w: Option<ProfileWrite>): Option<UserProfile> {
    match w
    case None => stored
    case Some(MergeGradeLevel(_, g)) => if stored.Some? then Some(stored.value.(gradeLevel := Some(g))) else stored
    case Some(CreateProfile(p)) => Some(p)
    case Some(MergeLanguage(_, l)) =>
      if stored.Some? then Some(stored.value.(selectedLanguage := Some(l))) else stored
  }

  /** After the write, the document holds the profile that was returned, so the
      next sign-in returns the same profile and writes nothing. */
  lemma EnsureUserProfileSettles(user: User, stored: Option<UserProfile>, age: Option<int>,
                                 gradeLevel: Option<string>, now: int, later: int)
    ensures var r := EnsureUserProfile(user, stored, age, gradeLevel, now);
            && AfterWrite(stored, r.write) == Some(r.profile)
            && EnsureUserProfile(user, Some(r.profile), None, None, later) == ProfilePlan(r.profile, None)
  {
  }

  /** How a sign-in is attempted; only sign-up passes an age and a grade level. */
  datatype SignInKind =
    | Google
    | EmailSignIn
    | EmailSignUp(age: Option<int>, gradeLevel: Option<string>)

  /** The error each kind of sign-in throws when any of its steps fails. */
  function SignInError(kind: SignInKind): string {
    match kind
    case Google => "Google sign-in failed"
    case EmailSignIn => "Sign-in failed. " + "Check your email and password."
    case EmailSignUp(_, _) => "Sign-up failed. " + "Email may already be in use."
  }

  /** The three failures are told apart by their messages. */
  lemma SignInErrorsDistinct(k1: SignInKind, k2: SignInKind)
    ensures SignInError(k1) == SignInError(k2) <==>
              ((k1.Google? && k2.Google?) || (k1.EmailSignIn? && k2.EmailSignIn?) || (k1.EmailSignUp? && k2.EmailSignUp?))
  {
    SignInErrorMarks(k1);
    SignInErrorMarks(k2);
  }

  /** The first and sixth characters of each message. */
  lemma SignInErrorMarks(k: SignInKind)
    ensures |SignInError(k)| > 5
    ensures SignInError(k)[0] == if k.Google? then 'G' else 'S'
    ensures SignInError(k)[5] == if k.Google? then 'e' else if k.EmailSignIn? then 'i' else 'u'
  {
    match k
    case Google =>
    case EmailSignIn =>
    case EmailSignUp(_, _) =>
  }

  /** The profile `ensureUserProfile` resolves with, or nothing when it rejects:
      the document read failed, or the write it planned failed. */
  function EnsuredProfile(user: User, stored: Result<Option<UserProfile>, ()>, writeOk: bool,
                          age: Option<int>, gradeLevel: Option<string>, now: int): (r: Option<UserProfile>)
    ensures r.Some? <==> stored.Ok? && (writeOk || EnsureUserProfile(user, stored.value, age, gradeLevel, now).write.None?)
    ensures r.Some? ==> r.value == EnsureUserProfile(user, stored.value, age, gradeLevel, now).profile
  {
    if stored.Err? then None
    else
      var plan := EnsureUserProfile(user, stored.value, age, gradeLevel, now);
      if plan.write.Some? && !writeOk then None else Some(plan.profile)
  }

  /** `useAuthStore`. */
  class Store {
    var user: Option<User>
    var profile: Option<UserProfile>
    var loading: bool
    var initialized: bool

    constructor()
      ensures user.None? && profile.None? && !loading && !initialized
    {
      user, profile, loading, initialized := None, None, false, false;
    }

    /** The first step of every sign-in: `set({ loading: true })`. */
    method BeginSignIn()
      modifies this
      ensures loading
      ensures user == old(user) && profile == old(profile) && initialized == old(initialized)
    {
      loading := true;
    }

    /** The end of a sign-in, once Firebase Auth (`auth`), the profile read
        (`stored`) and the profile write (`writeOk`) have settled. On success the
        user and the ensured profile are stored; on any failure only `loading`
        changes and the kind's fixed message is thrown. */
    method FinishSignIn(kind: SignInKind, auth: Result<User, ()>, stored: Result<Option<UserProfile>, ()>,
                        writeOk: bool, now: int) returns (error: Option<string>)
      modifies this
      ensures !loading && initialized == old(initialized)
      ensures var age := if kind.EmailSignUp? then kind.age else None;
              var grade := if kind.EmailSignUp? then kind.gradeLevel else None;
              var p := if auth.Ok? then EnsuredProfile(auth.value, stored, writeOk, age, grade, now) else None;
              && (error.None? <==> p.Some?)
              && (error.None? ==> user == Some(auth.value) && profile == p)
              && (error.Some? ==> error.value == SignInError(kind) && user == old(user) && profile == old(profile))
    {
      var age := if kind.EmailSignUp? then kind.age else None;
      var grade := if kind.EmailSignUp? then kind.gradeLevel else None;
      var p := if auth.Ok? then EnsuredProfile(auth.value, stored, writeOk, age, grade, now) else None;
      if p.Some? {
        user, profile, loading := Some(auth.value), p, false;
        error := None;
      } else {
        loading := false;
        error := Some(SignInError(kind));
      }
    }

    /** `signOut`: once Firebase has signed out, the user and the profile are
        cleared; if it rejects, nothing changes. */
    method SignOut(signedOut: bool)
      modifies this
      ensures signedOut ==> user.None? && profile.None?
      ensures !signedOut ==> user == old(user) && profile == old(profile)
      ensures loading == old(loading) && initialized == old(initialized)
    {
      if signedOut {
        user, profile := None, None;
      }
    }

    /** `updateLanguage`: nothing without a user; otherwise the language is merged
        into the profile document and, once that succeeded, into the stored
        profile, if there is one. Returns the write it attempted. */
    method UpdateLanguage(language: Language, writeOk: bool) returns (write: Option<ProfileWrite>)
      modifies this
      ensures old(user).None? ==> write.None? && profile == old(profile)
      ensures old(user).Some? ==> write == Some(MergeLanguage(old(user).value.uid, language))
      ensures old(user).Some? && writeOk ==>
                profile == (if old(profile).Some? then Some(old(profile).value.(selectedLanguage := Some(language))) else None)
      ensures old(user).Some? && !writeOk ==> profile == old(profile)
      ensures user == old(user) && loading == old(loading) && initialized == old(initialized)
    {
      write := None;
      if user.Some? {
        write := Some(MergeLanguage(user.value.uid, language));
        if writeOk {
          profile := if profile.Some? then Some(profile.value.(selectedLanguage := Some(language))) else None;
        }
      }
    }

    /** The `onAuthStateChanged` callback `init` registers. With no user the store
        is cleared and marked initialized. With a user it is stored with the
        ensured profile; if ensuring the profile rejects, nothing changes. */
    method AuthStateChanged(u: Option<User>, stored: Result<Option<UserProfile>, ()>, writeOk: bool, now: int)
      modifies this
      ensures u.None? ==> user.None? && profile.None? && initialized && !loading
      ensures u.Some? ==>
                var p := EnsuredProfile(u.value, stored, writeOk, None, None, now);
                if p.Some? then user == u && profile == p && initialized && !loading
                else user == old(user) && profile == old(profile) && initialized == old(initialized)
                     && loading == old(loading)
    {
      if u.None? {
        user, profile, initialized, loading := None, None, true, false;
      } else {
        var p := EnsuredProfile(u.value, stored, writeOk, None, None, now);
        if p.Some? {
          user, profile, initialized, loading := u, p, true, false;
        }
      }
    }
  }
}
